# Data usage monitor: a Dafny model of its accounting and state logic

The application is an Android back end for a Flutter data-usage monitor. Under its platform glue sits a small core, and this project models that core and proves what it promises:

- **Readings.** A network-statistics summary arrives as a cursor over buckets (uid, rxBytes, txBytes). A reading sums rx + tx over the buckets and divides by 1024 * 1024 to give megabytes. Three copies of this code handle failure differently:
  - the `DataUsageCalculator` singleton answers 0.0 and keeps its `last*` cache unless the query succeeds;
  - the activity's private getters throw `SecurityException`;
  - the `data_usage_monitor` channel answers 0.0 on `RemoteException` and lets any other exception out as error "ERROR".
- **Per-application usage.** One loop folds the buckets into an insertion-ordered map keyed by UID. The model drops system UIDs and UIDs the package manager cannot name, then writes one record per remaining UID. The Wi-Fi and mobile lists are then merged by package name. The total is Wi-Fi plus mobile, and a mobile figure is assigned, never added.
- **Daily limit.** Two preference keys with defaults: the limit, 0.0, meaning none; and the alert flag, on. The limit counts as exceeded when `limit > 0 && usage >= limit`, and the alert is posted only while alerts are enabled.
- **Background refresh.**
  - The monitor service has a guarded start and an unconditional stop, and schedules one timer: delay 0, then every 15 s.
  - Updates are throttled to one per 5 s. Each update refreshes the cache and reposts the status notification.
  - The notification's figures follow four rules: a percentage truncated and capped at 100; GB strictly above 1024 MB; the limit text only when a limit is set; a progress bar only when a limit is set.
  - The activity runs a self-rescheduling update chain that feeds an event stream.

The platform becomes values (`Platform.Device`):
- the API level;
- the AppOps mode, or a check that threw;
- the battery-optimisation answer;
- a function that answers each summary query with buckets or an exception.

Time is a `Platform.Clock`: the current time, plus how long ago local midnight was. The package manager is a map from UID to packages, plus the labels and icons it can resolve. The NotificationManager, the preference store, the calculator's cache and the service's companion flag are classes whose fields the methods update.

Kotlin's `mutableMapOf` iterates in insertion order. `LinkedMaps.LinkedMap` keeps that order explicitly, so the order of the output lists is part of what is proved.

Files: `wrappers.dfy`, `buckets.dfy`, `platform.dfy`, `linked_maps.dfy`, `notifications.dfy`, `data_usage_calculator.dfy`, `app_data_usage_calculator.dfy`, `data_limit_channel.dfy`, `data_monitor_service.dfy`, `main_activity.dfy`, `data_monitor_channel.dfy`.

## Model

| member | source | states |
|---|---|---|
| `Buckets.SumBytes` | android/app/src/main/kotlin/com/example/v2/DataUsageCalculator.kt:50-55 | the `totalBytes` loop returns rx + tx summed over every bucket |
| `Buckets.ToMB` | android/app/src/main/kotlin/com/example/v2/DataUsageCalculator.kt:58 | the megabyte figure times 1048576 is the byte count; a non-negative count gives a non-negative figure |
| `Platform.LastMinutes` | android/app/src/main/kotlin/com/example/v2/MainActivity.kt:281-284 | the window ends at the clock and starts exactly the given minutes earlier |
| `Platform.LastHours` | android/app/src/main/kotlin/com/example/v2/AppDataUsageCalculator.kt:33-38 | the window ends at the clock and starts exactly the given hours earlier; it is well ordered iff the hour count is not negative |
| `Platform.Today` | android/app/src/main/kotlin/com/example/v2/DataUsageCalculator.kt:86-94 | the window runs from local midnight, never after its end, to the clock |
| `LinkedMaps.FirstSeenSpec` | android/app/src/main/kotlin/com/example/v2/AppDataUsageCalculator.kt:201 | a map's key order lists each inserted key exactly once, and lists only inserted keys |
| `LinkedMaps.LinkedMap.Put` | android/app/src/main/kotlin/com/example/v2/AppDataUsageCalculator.kt:60 | `m[k] = v` replaces the value of `k`, keeps a present key in its place, appends a new one, and keeps the map well formed |
| `LinkedMaps.Empty` | android/app/src/main/kotlin/com/example/v2/AppDataUsageCalculator.kt:50 | a fresh map is empty and well formed |
| `Notifications.NotificationManager.Notify` | android/app/src/main/kotlin/com/example/v2/DataLimitChannel.kt:119-121 | posting under an id replaces what that id showed and leaves every other id alone |
| `DataUsageCalculator.HasUsageStatsPermission` | android/app/src/main/kotlin/com/example/v2/DataUsageCalculator.kt:130-152 | permission is granted iff the AppOps mode is MODE_ALLOWED; a check that throws denies |
| `DataUsageCalculator.WifiUsageSound` | android/app/src/main/kotlin/com/example/v2/DataUsageCalculator.kt:25-28 | without permission there is no reading; a reading over non-negative counters is not negative |
| `DataUsageCalculator.QueryWifiUsage` | android/app/src/main/kotlin/com/example/v2/DataUsageCalculator.kt:25-65 | guards in order (permission, API 23), the query, then the byte loop; no reading when a guard fails or the query throws |
| `DataUsageCalculator.UsageCache.constructor` | android/app/src/main/kotlin/com/example/v2/DataUsageCalculator.kt:18-20 | the cache starts at 0.0 and 0.0, stamped with the creation time |
| `DataUsageCalculator.UsageCache.GetCurrentDataUsage` | android/app/src/main/kotlin/com/example/v2/DataUsageCalculator.kt:23-71 | over the last three hours: a success returns the reading, caches it as the current figure and stamps the time, and leaves today's figure alone; every failure returns 0.0 and changes nothing |
| `DataUsageCalculator.UsageCache.GetTodayDataUsage` | android/app/src/main/kotlin/com/example/v2/DataUsageCalculator.kt:74-127 | since midnight: a success returns the reading, caches it as today's figure and stamps the time, and leaves the current figure alone; every failure returns 0.0 and changes nothing |
| `DataUsageCalculator.UsageCache.Refresh` | android/app/src/main/kotlin/com/example/v2/DataMonitorService.kt:163-171 | after both getters, each cached figure is its new reading, or its old value when that reading failed; the stamp moves iff either succeeded |
| `AppDataUsageCalculator.AccumulateByUid` | android/app/src/main/kotlin/com/example/v2/AppDataUsageCalculator.kt:50-61 | the map's keys are exactly the UIDs seen, in first-seen order, and each value is the rx + tx total of that UID's buckets |
| `AppDataUsageCalculator.UidBytesIsTotalOfItsBuckets` | android/app/src/main/kotlin/com/example/v2/AppDataUsageCalculator.kt:57-60 | a UID's running total is the byte total of its own buckets |
| `AppDataUsageCalculator.UidBytesUnseen` | android/app/src/main/kotlin/com/example/v2/AppDataUsageCalculator.kt:60 | a UID that never appears accumulates nothing |
| `AppDataUsageCalculator.PerUidTotalsAddUp` | android/app/src/main/kotlin/com/example/v2/AppDataUsageCalculator.kt:54-61 | the per-UID totals add up to the byte total of all buckets: the fold loses and doubles nothing |
| `AppDataUsageCalculator.Surviving` | android/app/src/main/kotlin/com/example/v2/AppDataUsageCalculator.kt:65-74 | a UID is kept iff it is above FIRST_APPLICATION_UID, has a non-empty package list, and its first package resolves |
| `AppDataUsageCalculator.BuildRecords` | android/app/src/main/kotlin/com/example/v2/AppDataUsageCalculator.kt:65-97 | the record loop yields, in map order, one record per kept UID: its first package, that package's label, its total in MB, and whether an icon loads |
| `AppDataUsageCalculator.SurvivingUids` | android/app/src/main/kotlin/com/example/v2/AppDataUsageCalculator.kt:65-72 | the UIDs that yield records are distinct, and are exactly the application UIDs seen that the package manager can name |
| `AppDataUsageCalculator.AppRecords` | android/app/src/main/kotlin/com/example/v2/AppDataUsageCalculator.kt:65-97 | a transport's list has one record per such UID, built from that UID's byte total |
| `AppDataUsageCalculator.RecordsComeFromApplicationUids` | android/app/src/main/kotlin/com/example/v2/AppDataUsageCalculator.kt:67-77 | every record comes from a seen UID above 10000 with a package list; its name is the first package and its MB is that UID's total |
| `AppDataUsageCalculator.UidBytesNonNegative` | android/app/src/main/kotlin/com/example/v2/AppDataUsageCalculator.kt:54-60 | over non-negative counters, a UID's accumulated total is never negative |
| `AppDataUsageCalculator.AppRecordsNonNegative` | android/app/src/main/kotlin/com/example/v2/AppDataUsageCalculator.kt:54-82 | over non-negative counters, every per-app record's `usageMB` is non-negative |
| `AppDataUsageCalculator.GetAppsDataUsage` | android/app/src/main/kotlin/com/example/v2/AppDataUsageCalculator.kt:18-104 | `getAppsWifiDataUsage` / `getAppsMobileDataUsage` return the records of the summary over the last `timeRangeInHours` hours, and an empty list without permission |
| `AppDataUsageCalculator.WifiStep` | android/app/src/main/kotlin/com/example/v2/AppDataUsageCalculator.kt:211 | a Wi-Fi record replaces the whole entry of its package with its name, its figure and mobile 0 |
| `AppDataUsageCalculator.MobileStep` | android/app/src/main/kotlin/com/example/v2/AppDataUsageCalculator.kt:222-228 | a mobile record assigns `mobileMB` of an existing entry and keeps the rest of it, or creates an entry with Wi-Fi 0 |
| `AppDataUsageCalculator.FoldWifi` | android/app/src/main/kotlin/com/example/v2/AppDataUsageCalculator.kt:204-212 | after the Wi-Fi loop, the map holds the merged entry of every Wi-Fi package, keyed in first-seen order |
| `AppDataUsageCalculator.FoldMobile` | android/app/src/main/kotlin/com/example/v2/AppDataUsageCalculator.kt:215-230 | after the mobile loop, the map holds the merged entry of every package of either list, keyed in first-seen order |
| `AppDataUsageCalculator.ToTotals` | android/app/src/main/kotlin/com/example/v2/AppDataUsageCalculator.kt:233-242 | one output object per map entry, in insertion order, with total = Wi-Fi + mobile |
| `AppDataUsageCalculator.MergeByPackage` | android/app/src/main/kotlin/com/example/v2/AppDataUsageCalculator.kt:201-242 | the merged list has one object per package named in either list, in first-seen order, each the merged entry of that package |
| `AppDataUsageCalculator.MergedIffNamed` | android/app/src/main/kotlin/com/example/v2/AppDataUsageCalculator.kt:201-242 | a package has a merged entry iff it is named in the Wi-Fi or the mobile list; the merged order has no repeats |
| `AppDataUsageCalculator.MergedFigures` | android/app/src/main/kotlin/com/example/v2/AppDataUsageCalculator.kt:211-239 | total = Wi-Fi + mobile. Mobile-only: Wi-Fi 0 and the first mobile record's name. Wi-Fi-only: mobile 0. In both lists: name and Wi-Fi figure from the last Wi-Fi record, and the mobile figure of the last mobile record, assigned, not added |
| `AppDataUsageCalculator.MergedNonNegative` | android/app/src/main/kotlin/com/example/v2/AppDataUsageCalculator.kt:205-239 | when neither input list holds a negative figure, every merged entry's Wi-Fi, mobile and total figures are non-negative |
| `AppDataUsageCalculator.GetAllAppsDataUsage` | android/app/src/main/kotlin/com/example/v2/AppDataUsageCalculator.kt:196-248 | the result is the merge of both transports' lists over the same window, and it is empty without permission |
| `DataLimitChannel.LimitPrefs.constructor` | android/app/src/main/kotlin/com/example/v2/DataLimitChannel.kt:24-25 | a fresh store holds neither key |
| `DataLimitChannel.LimitPrefs.GetDailyLimit` | android/app/src/main/kotlin/com/example/v2/DataLimitChannel.kt:61-63 | the limit is 0.0 when none was stored |
| `DataLimitChannel.LimitPrefs.IsLimitAlertEnabled` | android/app/src/main/kotlin/com/example/v2/DataLimitChannel.kt:71-73 | alerts are on when the flag was never stored |
| `DataLimitChannel.LimitPrefs.SetDailyLimit` | android/app/src/main/kotlin/com/example/v2/DataLimitChannel.kt:56-58 | the next get returns the limit set, and the alert flag is untouched |
| `DataLimitChannel.LimitPrefs.SetLimitAlertEnabled` | android/app/src/main/kotlin/com/example/v2/DataLimitChannel.kt:66-68 | the next read returns the flag set, and the limit is untouched |
| `DataLimitChannel.LimitExceeded` | android/app/src/main/kotlin/com/example/v2/DataLimitChannel.kt:76-83 | exceeded iff 0 < limit <= usage: no limit never triggers, and reaching the limit exactly counts |
| `DataLimitChannel.LimitArgument` | android/app/src/main/kotlin/com/example/v2/DataLimitChannel.kt:34 | a missing `limitMB` argument means 0.0; a supplied one is used as given |
| `DataLimitChannel.EnabledArgument` | android/app/src/main/kotlin/com/example/v2/DataLimitChannel.kt:42 | a missing `enabled` argument means false; a supplied one is used as given |
| `DataLimitChannel.LimitChannel.CheckIfLimitExceeded` | android/app/src/main/kotlin/com/example/v2/DataLimitChannel.kt:76-82 | against the stored limit: false when it is 0 or less, otherwise usage >= limit |
| `DataLimitChannel.LimitChannel.SendLimitExceededNotification` | android/app/src/main/kotlin/com/example/v2/DataLimitChannel.kt:86-122 | with alerts disabled nothing is posted; otherwise the limit alert is posted under id 2 |
| `DataLimitChannel.LimitChannel.OnMethodCall` | android/app/src/main/kotlin/com/example/v2/DataLimitChannel.kt:31-53 | the two setters store their argument or its default, touch only their own key and answer true; the getters answer the stored values; anything else answers notImplemented |
| `DataMonitorService.ServiceFlag.constructor` | android/app/src/main/kotlin/com/example/v2/DataMonitorService.kt:26-28 | the companion flag starts false |
| `DataMonitorService.TruncateToInt` | android/app/src/main/kotlin/com/example/v2/DataMonitorService.kt:185 | `toInt()` rounds toward zero |
| `DataMonitorService.UsagePercentage` | android/app/src/main/kotlin/com/example/v2/DataMonitorService.kt:183-188 | 0 without a limit, never above 100, otherwise the truncated percentage of today's usage; it shows 100 iff the limit counts as exceeded |
| `DataMonitorService.UsagePercentageMonotone` | android/app/src/main/kotlin/com/example/v2/DataMonitorService.kt:183-188 | more usage never shows a smaller percentage |
| `DataMonitorService.WithUnit` | android/app/src/main/kotlin/com/example/v2/DataMonitorService.kt:193-220 | GB iff strictly above 1024 MB, and the shown figure in its unit stands for the same megabytes |
| `DataMonitorService.StatusNotification` | android/app/src/main/kotlin/com/example/v2/DataMonitorService.kt:222-256 | the limit text and a 100-step progress bar at the percentage iff a limit is set; otherwise the text shows the current three-hour figure; every figure is shown in GB above 1024 MB and in MB otherwise |
| `DataMonitorService.MonitorService.constructor` | android/app/src/main/kotlin/com/example/v2/DataMonitorService.kt:20-24 | no wake lock, no timer, not monitoring, last update 0 |
| `DataMonitorService.MonitorService.OnStartCommand` | android/app/src/main/kotlin/com/example/v2/DataMonitorService.kt:36-47 | the first start takes the wake lock, starts the timer and raises the companion flag; a repeated start changes nothing; the answer is START_STICKY |
| `DataMonitorService.MonitorService.AcquireWakeLock` | android/app/src/main/kotlin/com/example/v2/DataMonitorService.kt:100-115 | a wake lock with a one-hour timeout is held |
| `DataMonitorService.MonitorService.StartMonitoring` | android/app/src/main/kotlin/com/example/v2/DataMonitorService.kt:117-141 | starting while monitoring changes nothing; otherwise one timer is scheduled at delay 0 and period 15000 ms, and never a second one |
| `DataMonitorService.MonitorService.UpdateDataAndNotification` | android/app/src/main/kotlin/com/example/v2/DataMonitorService.kt:143-161 | an update less than 5000 ms after the last one changes nothing; otherwise it stamps the time, refreshes the cache (each figure its new reading or its old value, the cache stamp moving iff a reading succeeded) and reposts notification 1 from the cache and the stored limit |
| `DataMonitorService.MonitorService.UpdateNotification` | android/app/src/main/kotlin/com/example/v2/DataMonitorService.kt:173-265 | notification 1 becomes the status built from the cached figures and the stored limit |
| `DataMonitorService.MonitorService.OnDestroy` | android/app/src/main/kotlin/com/example/v2/DataMonitorService.kt:267-273 | monitoring stops, the timer and the wake lock are dropped, and the companion flag is false |
| `DataMonitorService.MonitorService.StopMonitoring` | android/app/src/main/kotlin/com/example/v2/DataMonitorService.kt:279-283 | not monitoring and no timer |
| `DataMonitorService.MonitorService.ReleaseWakeLock` | android/app/src/main/kotlin/com/example/v2/DataMonitorService.kt:285-295 | no wake lock is held afterwards |
| `MainActivity.StartDataMonitorService` | android/app/src/main/kotlin/com/example/v2/MainActivity.kt:241-259 | the exemption is requested iff API >= 23 and battery optimisation is not ignored; the service start comes last, as a foreground service from API 26 |
| `MainActivity.ThrowingWifiUsage` | android/app/src/main/kotlin/com/example/v2/MainActivity.kt:272-312 | 0.0 below API 23; `SecurityException` without permission; the query's own exception when it throws; otherwise the buckets' megabytes |
| `MainActivity.ThrowingAgreesWithCalculator` | android/app/src/main/kotlin/com/example/v2/MainActivity.kt:315-360 | from API 23 on, the throwing getters succeed exactly when the calculator gets a reading, and then return the same figure |
| `MainActivity.GetCurrentDataUsage` | android/app/src/main/kotlin/com/example/v2/MainActivity.kt:272-312 | the private getter answers the throwing reading over the last five minutes |
| `MainActivity.GetTodayDataUsage` | android/app/src/main/kotlin/com/example/v2/MainActivity.kt:315-360 | the private getter answers the throwing reading since midnight |
| `MainActivity.ThrowingQuery` | android/app/src/main/kotlin/com/example/v2/MainActivity.kt:296-304 | guards, query and byte loop compute the throwing reading |
| `MainActivity.Activity.constructor` | android/app/src/main/kotlin/com/example/v2/MainActivity.kt:36-39 | no sink, no stream, nothing queued, nothing sent |
| `MainActivity.Activity.OnResume` | android/app/src/main/kotlin/com/example/v2/MainActivity.kt:57-73 | `onCreate`/`onResume` start the service only when the companion flag is false |
| `MainActivity.Activity.OnDestroy` | android/app/src/main/kotlin/com/example/v2/MainActivity.kt:75-78 | the stream stops and nothing stays queued |
| `MainActivity.Activity.OnListen` | android/app/src/main/kotlin/com/example/v2/MainActivity.kt:181-188 | the sink is attached and the stream runs, with at most the one queued update |
| `MainActivity.Activity.OnCancel` | android/app/src/main/kotlin/com/example/v2/MainActivity.kt:190-194 | the stream stops, nothing stays queued, and the sink is detached |
| `MainActivity.Activity.StartDataStream` | android/app/src/main/kotlin/com/example/v2/MainActivity.kt:203-209 | a running stream is left alone; otherwise exactly one update is queued, posted without delay |
| `MainActivity.Activity.StopDataStream` | android/app/src/main/kotlin/com/example/v2/MainActivity.kt:212-216 | the stream is off and no update stays queued |
| `MainActivity.Activity.RunUpdate` | android/app/src/main/kotlin/com/example/v2/MainActivity.kt:42-55 | with a sink attached, the update refreshes the cache, sends one payload of the refreshed figures and queues itself again 5000 ms later; without one, the chain ends and the cache is untouched; never more than one queued update |
| `MainActivity.Activity.SendDataUpdate` | android/app/src/main/kotlin/com/example/v2/MainActivity.kt:219-239 | refreshes the cache (each figure its new reading or its old value, the stamp moving iff a reading succeeded), then sends exactly the cached current and today figures, the cache stamp and the stored limit, if a sink is attached |
| `MainActivity.Activity.OnMonitorCall` | android/app/src/main/kotlin/com/example/v2/MainActivity.kt:114-146 | readings go to the calculator, which caches a successful one with its stamp and is untouched otherwise; start and stop hand the service intents to the system, leave the cache alone and answer true; the companion flag answers `isMonitoringActive`; anything else answers notImplemented; no call errs |
| `MainActivity.Activity.OnLimitCall` | android/app/src/main/kotlin/com/example/v2/MainActivity.kt:149-175 | the same defaults and keys as the limit channel; `isLimitAlertEnabled` is not handled here and answers notImplemented |
| `DataMonitorChannel.SubscriptionId` | android/app/src/main/kotlin/com/example/data_usage_monitor/DataMonitorChannel.kt:176-186 | -1 below API 22 or when the list is missing or empty; otherwise the first entry's id |
| `DataMonitorChannel.MobileUsage` | android/app/src/main/kotlin/com/example/data_usage_monitor/DataMonitorChannel.kt:71-103 | 0.0 below API 23 and on `RemoteException`; any other exception is a failure; otherwise the mobile megabytes |
| `DataMonitorChannel.MobileUsageNonNegative` | android/app/src/main/kotlin/com/example/data_usage_monitor/DataMonitorChannel.kt:89-97 | a mobile reading over non-negative counters is not negative |
| `DataMonitorChannel.QueryMobileUsage` | android/app/src/main/kotlin/com/example/data_usage_monitor/DataMonitorChannel.kt:106-143 | the query and the byte loop compute the mobile reading |
| `DataMonitorChannel.MonitorChannel.constructor` | android/app/src/main/kotlin/com/example/data_usage_monitor/DataMonitorChannel.kt:33-34 | not monitoring, no thread |
| `DataMonitorChannel.MonitorChannel.StartMonitoring` | android/app/src/main/kotlin/com/example/data_usage_monitor/DataMonitorChannel.kt:146-166 | a start while monitoring changes nothing; otherwise one thread is started |
| `DataMonitorChannel.MonitorChannel.StopMonitoring` | android/app/src/main/kotlin/com/example/data_usage_monitor/DataMonitorChannel.kt:169-173 | not monitoring and no thread |
| `DataMonitorChannel.MonitorChannel.OnMethodCall` | android/app/src/main/kotlin/com/example/data_usage_monitor/DataMonitorChannel.kt:40-68 | readings answer their figure, or error "ERROR" when they fail; start and stop answer true; anything else answers notImplemented |
| `DataMonitorChannel.ReplyFor` | android/app/src/main/kotlin/com/example/data_usage_monitor/DataMonitorChannel.kt:42-55 | a failed reading answers error "ERROR"; a successful one answers its figure |

## Left out

- Android services are not modelled as code. `NetworkStatsManager`, `PackageManager`, `AppOpsManager` and `PowerManager` become the values of `Platform.Device` and `AppDataUsageCalculator.PackageManager`.
- `DataMonitorChannel.SubscriptionId` takes the active subscription list as a parameter and is not connected to `DataMonitorChannel.MobileUsage`. `getSubscriberId` is not modelled, and the mobile query is a function of transport and window only, so which subscriber it covers is the query function's business. A `SecurityException` from reading the subscription list without READ_PHONE_STATE is therefore not among the mobile readings' failures.
- The Kotlin default argument `timeRangeInHours = 24` is not modelled. Every caller in the app passes the range explicitly, and the model takes it as a parameter.
- Calendar and time-zone arithmetic are not modelled. Midnight arrives as a millisecond offset in `Platform.Clock`.
- Each `System.currentTimeMillis()` read is not modelled separately. The model uses one clock reading per operation, so `lastTimestamp` is the window's end, not a read a few milliseconds later.
- Floating point is not modelled. Megabytes are exact reals, so the model has no IEEE rounding of `/ (1024 * 1024)`, no `%.2f` text and no NaN.
- `Buckets.SumBytes`: sums unbounded integers. The source's 64-bit `totalBytes` would wrap past 2^63 - 1 bytes, far beyond any day's traffic.
- `AppDataUsageCalculator.AccumulateByUid`: sums each UID's total as an unbounded integer, and `UidBytes` defines it that way. The source's `Long` values in `appUsageMap` would wrap past 2^63 - 1 bytes in the same way.
- `DataLimitChannel.LimitPrefs.SetDailyLimit`: stores the limit exactly. The source narrows it to a 32-bit float (`toFloat`), so its later get returns the nearest float rather than the value set.
- `DataMonitorService.TruncateToInt`: has no saturation at the 32-bit `Int` range. Only the capped percentage uses it, and that cap is already 100.
- Notification text, icons, channels, `PendingIntent`s and the foreground-service notice are not modelled. Only the decisions are: which text variant, which figures in which unit, whether a progress bar is shown, and which id is posted.
- Concurrency is not modelled: the `Timer` thread, the sleeping `monitorThread`, and the `Handler` queue. Each timer tick and handler run is one method call. The queue is a count of pending update callbacks, and the thread is a value.
- Wake-lock expiry after its hour, and failures to acquire or release it, are not modelled.
- OS lifecycle is not modelled: the self-restart at the end of `DataMonitorService.onDestroy`, what `START_STICKY` makes the system do, and when the system calls lifecycle methods.
- The activity's permissions channel is not part of this model. It only forwards to the platform and opens settings screens.
- `AppIconChannel.kt`, `AppDataUsageChannel.kt`, the `data_usage_monitor` `MainActivity.kt` and `BootReceiver.kt` are not part of this model. They are bitmap encoding and thin dispatch or launch glue.
- JSON building is not modelled; records are datatypes. Channel arguments of the wrong type are not modelled either: in the source they make `call.argument` throw. In the model an argument is either present with its type or absent.
