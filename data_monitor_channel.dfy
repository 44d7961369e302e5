/** The `data_usage_monitor` package's `DataMonitorChannel`: mobile-data
    readings answered over a method channel, and a monitoring flag guarding
    a background thread. */
module DataMonitorChannel {
  import opened Wrappers
  import opened Buckets
  import opened Platform

  /** The reading windows: the last five minutes, and since midnight. */
  const CURRENT_WINDOW_MINUTES: nat := 5

  /** The background thread sleeps this long between rounds. */
  const MONITOR_SLEEP_MS: int := 5 * 60 * 1000

  /** `getSubscriptionId`: the first active subscription's id; -1 below
      API 22, when the platform has no list, or when the list is empty. */
  function SubscriptionId(sdk: int, activeSubscriptions: Option<seq<int>>): (id: int)
    ensures (sdk < SDK_LOLLIPOP_MR1 || activeSubscriptions == None || activeSubscriptions == Some([])) ==> id == -1
    ensures sdk >= SDK_LOLLIPOP_MR1 && activeSubscriptions.Some? && |activeSubscriptions.value| > 0 ==>
      id == activeSubscriptions.value[0]
  {
    if sdk >= SDK_LOLLIPOP_MR1 then
      match activeSubscriptions
      case None => -1
      case Some(subscriptions) => if |subscriptions| > 0 then subscriptions[0] else -1
    else -1
  }

  /** The channel's mobile reading. There is no permission check here: a
      refused query shows up as whatever the query throws. Below API 23, and
      when the query throws a `RemoteException`, the answer is 0.0; any other
      exception escapes. */
  function MobileUsage(device: Device, window: Window): (r: Result<real, Failure>)
    ensures device.sdk < SDK_M ==> r == Success(0.0)
    ensures device.sdk >= SDK_M && device.querySummary(Mobile, window) == Threw(RemoteException) ==> r == Success(0.0)
    ensures r.Failure? <==>
      device.sdk >= SDK_M && device.querySummary(Mobile, window).Threw? &&
      device.querySummary(Mobile, window).failure != RemoteException
    ensures device.sdk >= SDK_M && device.querySummary(Mobile, window).Returned? ==>
      r.Success? && r.value * (BYTES_PER_MB as real) == TotalBytes(device.querySummary(Mobile, window).buckets) as real
  {
    if device.sdk < SDK_M then Success(0.0)
    else match device.querySummary(Mobile, window)
      case Returned(buckets) => Success(ToMB(TotalBytes(buckets)))
      case Threw(RemoteException) => Success(0.0)
      case Threw(f) => Failure(f)
  }

  /** A successful mobile reading over non-negative counters is never
      negative. */
  lemma {:induction false} MobileUsageNonNegative(device: Device, window: Window)
    requires device.querySummary(Mobile, window).Returned? ==> NonNegative(device.querySummary(Mobile, window).buckets)
    ensures MobileUsage(device, window).Success? ==> MobileUsage(device, window).value >= 0.0
  {
    if device.sdk >= SDK_M && device.querySummary(Mobile, window).Returned? {
      TotalBytesNonNegative(device.querySummary(Mobile, window).buckets);
    }
  }

  /** The reading, with the bucket loop. */
  method QueryMobileUsage(device: Device, window: Window) returns (r: Result<real, Failure>)
    ensures r == MobileUsage(device, window)
  {
    if device.sdk < SDK_M {
      return Success(0.0);
    }
    match device.querySummary(Mobile, window) {
      case Returned(buckets) =>
        var totalBytes := SumBytes(buckets);
        r := Success(ToMB(totalBytes));
      case Threw(f) =>
        r := if f == RemoteException then Success(0.0) else Failure(f);
    }
  }

  /** A started background thread. */
  datatype MonitorThread = MonitorThread(sleepMs: int)

  class MonitorChannel {
    var isMonitoring: bool
    var monitorThread: Option<MonitorThread>

    /** A thread is held exactly while monitoring. */
    predicate Valid()
      reads this
    {
      isMonitoring <==> monitorThread.Some?
    }

    constructor ()
      ensures Valid() && !isMonitoring && monitorThread == None
    {
      isMonitoring := false;
      monitorThread := None;
    }

    /** `startMonitoring`: a second start keeps the running thread. */
    method StartMonitoring()
      requires Valid()
      modifies this
      ensures Valid() && isMonitoring
      ensures old(isMonitoring) ==> unchanged(this)
      ensures !old(isMonitoring) ==> monitorThread == Some(MonitorThread(MONITOR_SLEEP_MS))
    {
      if isMonitoring {
        return;
      }
      isMonitoring := true;
      monitorThread := Some(MonitorThread(MONITOR_SLEEP_MS));
    }

    /** `stopMonitoring`: interrupts and forgets the thread. */
    method StopMonitoring()
      modifies this
      ensures Valid() && !isMonitoring && monitorThread == None
    {
      isMonitoring := false;
      monitorThread := None;
    }

    /** `onMethodCall`: readings answer their figure or error "ERROR";
        start and stop always answer true. */
    method OnMethodCall(call: MethodCall, device: Device, clock: Clock) returns (reply: Reply)
      requires Valid()
      modifies this
      ensures Valid()
      ensures call.name == "getCurrentDataUsage" ==>
        unchanged(this) && reply == ReplyFor(MobileUsage(device, LastMinutes(clock.now, CURRENT_WINDOW_MINUTES)))
      ensures call.name == "getTodayDataUsage" ==>
        unchanged(this) && reply == ReplyFor(MobileUsage(device, Today(clock)))
      ensures call.name == "startMonitoring" ==>
        reply == Replied(BoolValue(true)) && isMonitoring &&
        (old(isMonitoring) ==> monitorThread == old(monitorThread))
      ensures call.name == "stopMonitoring" ==>
        reply == Replied(BoolValue(true)) && !isMonitoring && monitorThread == None
      ensures call.name !in {"getCurrentDataUsage", "getTodayDataUsage", "startMonitoring", "stopMonitoring"} ==>
        reply == NotImplemented && unchanged(this)
    {
      match call.name {
        case "getCurrentDataUsage" =>
          var r := QueryMobileUsage(device, LastMinutes(clock.now, CURRENT_WINDOW_MINUTES));
          reply := ReplyFor(r);
        case "getTodayDataUsage" =>
          var r := QueryMobileUsage(device, Today(clock));
          reply := ReplyFor(r);
        case "startMonitoring" =>
          StartMonitoring();
          reply := Replied(BoolValue(true));
        case "stopMonitoring" =>
          StopMonitoring();
          reply := Replied(BoolValue(true));
        case _ =>
          reply := NotImplemented;
      }
    }
  }

  /** A reading as the channel answers it: the figure, or error "ERROR"
      when the reading threw. */
  function ReplyFor(r: Result<real, Failure>): (reply: Reply)
    ensures reply.Error? <==> r.Failure?
    ensures reply.Error? ==> reply.code == "ERROR"
    ensures r.Success? ==> reply == Replied(DoubleValue(r.value))
  {
    match r
    case Success(mb) => Replied(DoubleValue(mb))
    case Failure(_) => Error("ERROR")
  }
}
