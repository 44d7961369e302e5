/** `DataMonitorService`: the background service that keeps the monitoring
    timer, refreshes the usage cache at most once every five seconds and
    posts the ongoing status notification. */
module DataMonitorService {
  import opened Wrappers
  import opened Platform
  import opened Notifications
  import opened DataUsageCalculator
  import opened DataLimitChannel

  /** The id the status notification is posted under. */
  const NOTIFICATION_ID: int := 1

  /** The timer's first delay and its period. */
  const TIMER_DELAY_MS: int := 0
  const UPDATE_PERIOD_MS: int := 15 * 1000

  /** Updates closer together than this are skipped. */
  const MIN_UPDATE_SPACING_MS: int := 5000

  /** The wake lock is taken for one hour. */
  const WAKE_LOCK_TIMEOUT_MS: int := 60 * 60 * 1000

  /** `Service.START_STICKY`. */
  const START_STICKY: int := 1

  /** A `Timer` scheduled at a fixed rate. */
  datatype Timer = Timer(delayMs: int, periodMs: int)

  /** A wake lock acquired with a timeout. */
  datatype WakeLock = WakeLock(timeoutMs: int)

  /** The companion object's `isServiceRunning`, shared with the activity. */
  class ServiceFlag {
    var isServiceRunning: bool

    constructor ()
      ensures !isServiceRunning
    {
      isServiceRunning := false;
    }
  }

  /** Kotlin's `Double.toInt()`: rounds toward zero. */
  function TruncateToInt(x: real): (n: int)
    ensures x >= 0.0 ==> 0 <= n && n as real <= x < (n + 1) as real
    ensures x < 0.0 ==> n <= 0 && (n - 1) as real < x <= n as real
  {
    if x >= 0.0 then x.Floor else -((-x).Floor)
  }

  /** The percentage shown in the status notification: 0 without a limit,
      otherwise today's usage as a truncated percentage of the limit, capped
      at 100. The bar is full exactly when the limit counts as exceeded. */
  function UsagePercentage(todayMB: real, limitMB: real): (p: int)
    ensures limitMB <= 0.0 ==> p == 0
    ensures p <= 100
    ensures limitMB > 0.0 && todayMB >= 0.0 ==> 0 <= p
    ensures limitMB > 0.0 && todayMB >= 0.0 && p < 100 ==> p as real <= todayMB / limitMB * 100.0 < (p + 1) as real
    ensures p == 100 <==> LimitExceeded(limitMB, todayMB)
  {
    if limitMB > 0.0 then
      var t := TruncateToInt(todayMB / limitMB * 100.0);
      RatioReachesHundred(todayMB, limitMB);
      if t < 100 then t else 100
    else 0
  }

  /** A percentage reaches 100 exactly when the part reaches the whole. */
  lemma RatioReachesHundred(part: real, whole: real)
    requires whole > 0.0
    ensures part / whole * 100.0 >= 100.0 <==> part >= whole
  {
    var q := part / whole;
    assert q * whole == part;
    if q >= 1.0 {
      assert q * whole >= 1.0 * whole;
    } else {
      assert q * whole < 1.0 * whole;
    }
  }

  /** More usage never shows a smaller percentage. */
  lemma {:induction false} UsagePercentageMonotone(todayMB: real, todayMB': real, limitMB: real)
    requires todayMB <= todayMB'
    ensures UsagePercentage(todayMB, limitMB) <= UsagePercentage(todayMB', limitMB)
  {
    if limitMB > 0.0 {
      var x, x' := todayMB / limitMB * 100.0, todayMB' / limitMB * 100.0;
      assert x <= x' by {
        DivideMonotone(todayMB, todayMB', limitMB);
      }
    }
  }

  /** Dividing by a positive number keeps the order. */
  lemma DivideMonotone(a: real, b: real, c: real)
    requires a <= b && c > 0.0
    ensures a / c <= b / c
  {
    var d := (b - a) / c;
    assert d * c == b - a;
    assert d >= 0.0;
    assert b / c == a / c + d;
  }

  /** The unit choice: above 1024 MB the figure is shown in GB. */
  function WithUnit(mb: real): (a: Amount)
    ensures a.unit == GB <==> mb > 1024.0
    ensures InMegabytes(a) == mb
  {
    if mb > 1024.0 then Amount(mb / 1024.0, GB) else Amount(mb, MB)
  }

  /** The status notification `updateNotification` posts. */
  function StatusNotification(currentMB: real, todayMB: real, limitMB: real): (n: Notification)
    ensures n.StatusUpdate?
    ensures n.content.LimitText? <==> limitMB > 0.0
    ensures n.progressBar.Some? <==> limitMB > 0.0
    ensures n.progressBar.Some? ==> n.progressBar.value == Progress(100, UsagePercentage(todayMB, limitMB))
    ensures n.content.today == WithUnit(todayMB)
    ensures n.content.LimitText? ==>
      n.content.limit == WithUnit(limitMB) && n.content.percentage == UsagePercentage(todayMB, limitMB)
    ensures n.content.NoLimitText? ==> n.content.lastThreeHours == WithUnit(currentMB)
  {
    var percentage := UsagePercentage(todayMB, limitMB);
    var content :=
      if limitMB > 0.0 then LimitText(WithUnit(todayMB), percentage, WithUnit(limitMB))
      else NoLimitText(WithUnit(todayMB), WithUnit(currentMB));
    StatusUpdate(content, if limitMB > 0.0 then Some(Progress(100, percentage)) else None)
  }

  /** The service instance. The cache, the preference store, the
      notification manager and the companion flag are shared objects. */
  class MonitorService {
    var wakeLock: Option<WakeLock>
    var timer: Option<Timer>
    var isMonitoring: bool
    var lastUpdateTime: int
    /** How many timers of this instance are scheduled and not cancelled. */
    ghost var liveTimers: nat

    const companion: ServiceFlag
    const cache: UsageCache
    const prefs: LimitPrefs
    const notifications: NotificationManager

    /** A timer runs exactly while monitoring, and it is the only one. */
    ghost predicate Valid()
      reads this
    {
      (isMonitoring <==> timer.Some?) &&
      (timer.Some? ==> timer.value == Timer(TIMER_DELAY_MS, UPDATE_PERIOD_MS)) &&
      liveTimers == (if isMonitoring then 1 else 0)
    }

    constructor (companion: ServiceFlag, cache: UsageCache, prefs: LimitPrefs, notifications: NotificationManager)
      ensures Valid()
      ensures !isMonitoring && timer == None && wakeLock == None && lastUpdateTime == 0
      ensures this.companion == companion && this.cache == cache
      ensures this.prefs == prefs && this.notifications == notifications
    {
      wakeLock := None;
      timer := None;
      isMonitoring := false;
      lastUpdateTime := 0;
      liveTimers := 0;
      this.companion := companion;
      this.cache := cache;
      this.prefs := prefs;
      this.notifications := notifications;
    }

    /** `onStartCommand`: on the first start takes the wake lock, starts
        monitoring and raises the companion flag; later starts change
        nothing. */
    method OnStartCommand() returns (mode: int)
      requires Valid()
      modifies this, companion
      ensures Valid() && mode == START_STICKY
      ensures old(isMonitoring) ==> unchanged(this) && unchanged(companion)
      ensures !old(isMonitoring) ==>
        isMonitoring && timer == Some(Timer(TIMER_DELAY_MS, UPDATE_PERIOD_MS)) &&
        wakeLock == Some(WakeLock(WAKE_LOCK_TIMEOUT_MS)) && companion.isServiceRunning &&
        lastUpdateTime == old(lastUpdateTime)
    {
      if !isMonitoring {
        AcquireWakeLock();
        StartMonitoring();
        companion.isServiceRunning := true;
      }
      mode := START_STICKY;
    }

    method AcquireWakeLock()
      modifies this
      ensures wakeLock == Some(WakeLock(WAKE_LOCK_TIMEOUT_MS))
      ensures timer == old(timer) && isMonitoring == old(isMonitoring)
      ensures lastUpdateTime == old(lastUpdateTime) && liveTimers == old(liveTimers)
    {
      wakeLock := Some(WakeLock(WAKE_LOCK_TIMEOUT_MS));
    }

    /** `startMonitoring`: schedules the timer unless one is running. */
    method StartMonitoring()
      requires Valid()
      modifies this
      ensures Valid() && isMonitoring
      ensures old(isMonitoring) ==> unchanged(this)
      ensures !old(isMonitoring) ==> timer == Some(Timer(TIMER_DELAY_MS, UPDATE_PERIOD_MS))
      ensures wakeLock == old(wakeLock) && lastUpdateTime == old(lastUpdateTime)
    {
      if isMonitoring {
        return;
      }
      isMonitoring := true;
      timer := Some(Timer(TIMER_DELAY_MS, UPDATE_PERIOD_MS));
      liveTimers := liveTimers + 1;
    }

    /** `updateDataAndNotification`, run by each timer tick: skipped when the
        last update is less than five seconds old; otherwise refreshes the
        cache and reposts the status notification from the cache and the
        stored limit. */
    method UpdateDataAndNotification(device: Device, clock: Clock)
      requires Valid()
      modifies this, cache, notifications
      ensures Valid()
      ensures clock.now - old(lastUpdateTime) < MIN_UPDATE_SPACING_MS ==>
        unchanged(this) && unchanged(cache) && unchanged(notifications)
      ensures clock.now - old(lastUpdateTime) >= MIN_UPDATE_SPACING_MS ==>
        lastUpdateTime == clock.now &&
        cache.lastCurrentDataUsage == WifiUsage(device, CurrentWindow(clock.now)).GetOr(old(cache.lastCurrentDataUsage)) &&
        cache.lastTodayDataUsage == WifiUsage(device, Today(clock)).GetOr(old(cache.lastTodayDataUsage)) &&
        cache.lastTimestamp == (if WifiUsage(device, CurrentWindow(clock.now)).Some? || WifiUsage(device, Today(clock)).Some?
                                then clock.now else old(cache.lastTimestamp)) &&
        notifications.shown == old(notifications.shown)[NOTIFICATION_ID :=
          StatusNotification(cache.lastCurrentDataUsage, cache.lastTodayDataUsage, prefs.GetDailyLimit())]
      ensures isMonitoring == old(isMonitoring) && timer == old(timer) && wakeLock == old(wakeLock)
    {
      if clock.now - lastUpdateTime < MIN_UPDATE_SPACING_MS {
        return;
      }
      lastUpdateTime := clock.now;
      cache.Refresh(device, clock);
      UpdateNotification();
    }

    /** `updateNotification`. */
    method UpdateNotification()
      modifies notifications
      ensures notifications.shown == old(notifications.shown)[NOTIFICATION_ID :=
        StatusNotification(cache.lastCurrentDataUsage, cache.lastTodayDataUsage, prefs.GetDailyLimit())]
    {
      var n := StatusNotification(cache.lastCurrentDataUsage, cache.lastTodayDataUsage, prefs.GetDailyLimit());
      notifications.Notify(NOTIFICATION_ID, n);
    }

    /** `onDestroy`: stops monitoring, lets go of the wake lock and lowers
        the companion flag. */
    method OnDestroy()
      modifies this, companion
      ensures Valid()
      ensures !isMonitoring && timer == None && wakeLock == None && !companion.isServiceRunning
      ensures lastUpdateTime == old(lastUpdateTime)
    {
      StopMonitoring();
      ReleaseWakeLock();
      companion.isServiceRunning := false;
    }

    /** `stopMonitoring`: cancels and forgets the timer. */
    method StopMonitoring()
      modifies this
      ensures Valid()
      ensures !isMonitoring && timer == None
      ensures wakeLock == old(wakeLock) && lastUpdateTime == old(lastUpdateTime)
    {
      isMonitoring := false;
      timer := None;
      liveTimers := 0;
    }

    method ReleaseWakeLock()
      modifies this
      ensures wakeLock == None
      ensures timer == old(timer) && isMonitoring == old(isMonitoring)
      ensures lastUpdateTime == old(lastUpdateTime) && liveTimers == old(liveTimers)
    {
      wakeLock := None;
    }
  }
}
