/** The Android services the application talks to, reduced to the values it
    reads from them: the API level, the usage-stats permission mode, the
    battery-optimisation exemption and the answers of a network-statistics
    summary query; plus the time windows it asks for and the messages of the
    Flutter method channels. */
module Platform {
  import opened Wrappers
  import opened Buckets

  /** `Build.VERSION_CODES` the code branches on. */
  const SDK_LOLLIPOP_MR1: int := 22
  const SDK_M: int := 23
  const SDK_O: int := 26

  /** `AppOpsManager.MODE_ALLOWED`. */
  const MODE_ALLOWED: int := 0

  const MS_PER_MINUTE: int := 60 * 1000
  const MS_PER_HOUR: int := 60 * MS_PER_MINUTE

  /** `ConnectivityManager.TYPE_WIFI` and `TYPE_MOBILE`. */
  datatype Transport = Wifi | Mobile

  /** A query window [start, end] in milliseconds since the epoch. */
  datatype Window = Window(start: int, end: int)

  /** The window that ends at `end` and reaches back `minutes` minutes
      (`calendar.add(Calendar.MINUTE, -minutes)`). */
  function LastMinutes(end: int, minutes: nat): (w: Window)
    ensures w.end == end && w.start <= w.end
    ensures w.end - w.start == minutes * 60 * 1000
  {
    Window(end - minutes * MS_PER_MINUTE, end)
  }

  /** The window that ends at `end` and reaches back `hours` hours
      (`calendar.add(Calendar.HOUR, -hours)`); a negative count, which the
      callers do not exclude, puts the start after the end. */
  function LastHours(end: int, hours: int): (w: Window)
    ensures w.end == end
    ensures hours >= 0 <==> w.start <= w.end
    ensures w.end - w.start == hours * 60 * 60 * 1000
  {
    Window(end - hours * MS_PER_HOUR, end)
  }

  /** The window from local midnight to `end`; how far midnight lies behind
      the clock is the calendar's business and arrives as a count. */
  function Today(clock: Clock): (w: Window)
    ensures w.end == clock.now && w.start <= w.end
    ensures w.end - w.start == clock.msSinceMidnight
  {
    Window(clock.now - clock.msSinceMidnight, clock.now)
  }

  /** The clock: the current time and how long ago local midnight was. */
  datatype Clock = Clock(now: int, msSinceMidnight: nat)

  /** The exceptions the code distinguishes. */
  datatype Failure = RemoteException | SecurityException | OtherException

  /** What `NetworkStatsManager.querySummary` does for one request: hand back
      a cursor over buckets, or throw. */
  datatype Query = Returned(buckets: seq<Bucket>) | Threw(failure: Failure)

  /** What the AppOps permission check answers: a mode, or an exception. */
  datatype OpMode = Mode(mode: int) | CheckThrew

  /** The device as the code sees it. `querySummary` answers a summary query
      for a transport and a window (the subscriber of a mobile query is the
      platform's business). `ignoringBatteryOptimizations` is the
      PowerManager's answer, false when it throws. */
  datatype Device = Device(
    sdk: int,
    usageStatsMode: OpMode,
    ignoringBatteryOptimizations: bool,
    querySummary: (Transport, Window) -> Query)

  /** A call on a Flutter method channel: its name and the two arguments any
      handler reads (`limitMB` as a Double, `enabled` as a Boolean), each
      possibly absent. */
  datatype MethodCall = MethodCall(name: string, limitMB: Option<real>, enabled: Option<bool>)

  datatype Value = BoolValue(b: bool) | DoubleValue(d: real)

  /** `result.success(v)`, `result.notImplemented()` or `result.error(code, ...)`. */
  datatype Reply = Replied(value: Value) | NotImplemented | Error(code: string)
}
