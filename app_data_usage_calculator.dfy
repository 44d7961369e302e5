/** `AppDataUsageCalculator`: per-application usage. For one transport it folds
    the summary's buckets into a map keyed by UID, drops system UIDs and UIDs
    the package manager cannot name, and turns each remaining entry into a
    record; for both transports it merges the two record lists by package
    name. */
module AppDataUsageCalculator {
  import opened Wrappers
  import opened Buckets
  import opened Platform
  import opened LinkedMaps
  import DataUsageCalculator

  /** `Process.FIRST_APPLICATION_UID`: UIDs up to and including it are the
      system's. */
  const FIRST_APPLICATION_UID: int := 10000

  /** What the PackageManager answers. A UID missing from `packagesForUid`
      is one for which `getPackagesForUid` returns null; a package missing
      from `labels` is one for which `getApplicationInfo` throws (the app is
      skipped); `icons` holds the packages whose icon can be loaded. */
  datatype PackageManager = PackageManager(
    packagesForUid: map<int, seq<string>>,
    labels: map<string, string>,
    icons: set<string>)

  /** One entry of a per-transport list: {packageName, appName, usageMB, hasIcon}. */
  datatype AppUsage = AppUsage(packageName: string, appName: string, usageMB: real, hasIcon: bool)

  // ---------------------------------------------------------------------
  // Accumulation by UID

  /** The UIDs of the buckets, in cursor order. */
  function Uids(buckets: seq<Bucket>): (uids: seq<int>)
    ensures |uids| == |buckets|
    ensures forall i :: 0 <= i < |buckets| ==> uids[i] == buckets[i].uid
  {
    if buckets == [] then []
    else Uids(buckets[..|buckets| - 1]) + [buckets[|buckets| - 1].uid]
  }

  /** The bytes attributed to `uid`: rx + tx summed over its buckets. */
  function UidBytes(buckets: seq<Bucket>, uid: int): int {
    if buckets == [] then 0
    else
      var last := buckets[|buckets| - 1];
      UidBytes(buckets[..|buckets| - 1], uid) + (if last.uid == uid then Bytes(last) else 0)
  }

  /** The buckets of one UID, in cursor order. */
  function BucketsOf(buckets: seq<Bucket>, uid: int): seq<Bucket> {
    if buckets == [] then []
    else
      var last := buckets[|buckets| - 1];
      BucketsOf(buckets[..|buckets| - 1], uid) + (if last.uid == uid then [last] else [])
  }

  /** A UID's total is the plain byte sum over that UID's own buckets. */
  lemma {:induction false} UidBytesIsTotalOfItsBuckets(buckets: seq<Bucket>, uid: int)
    ensures UidBytes(buckets, uid) == TotalBytes(BucketsOf(buckets, uid))
  {
    if buckets != [] {
      var front, last := buckets[..|buckets| - 1], buckets[|buckets| - 1];
      var own := if last.uid == uid then [last] else [];
      assert BucketsOf(buckets, uid) == BucketsOf(front, uid) + own;
      UidBytesIsTotalOfItsBuckets(front, uid);
      TotalBytesAppend(BucketsOf(front, uid), own);
      assert TotalBytes(own) == if last.uid == uid then Bytes(last) else 0 by {
        if last.uid == uid {
          assert own[..0] == [];
        }
      }
    }
  }

  /** A UID that never appears has nothing attributed to it. */
  lemma {:induction false} UidBytesUnseen(buckets: seq<Bucket>, uid: int)
    requires uid !in Uids(buckets)
    ensures UidBytes(buckets, uid) == 0
  {
    if buckets != [] {
      var front := buckets[..|buckets| - 1];
      assert Uids(buckets) == Uids(front) + [buckets[|buckets| - 1].uid];
      UidBytesUnseen(front, uid);
    }
  }

  /** The byte totals of `uids`, added up. */
  function SumOfUidBytes(uids: seq<int>, buckets: seq<Bucket>): int {
    if uids == [] then 0
    else SumOfUidBytes(uids[..|uids| - 1], buckets) + UidBytes(buckets, uids[|uids| - 1])
  }

  /** One more bucket adds its bytes to the sum once if its UID is listed
      (once), and not at all otherwise. */
  lemma {:induction false} SumOfUidBytesSnoc(uids: seq<int>, front: seq<Bucket>, last: Bucket)
    requires Distinct(uids)
    ensures SumOfUidBytes(uids, front + [last]) ==
      SumOfUidBytes(uids, front) + (if last.uid in uids then Bytes(last) else 0)
  {
    var buckets := front + [last];
    assert buckets[..|buckets| - 1] == front;
    if uids != [] {
      var init := uids[..|uids| - 1];
      assert Distinct(init);
      assert last.uid in uids <==> last.uid in init || last.uid == uids[|uids| - 1];
      SumOfUidBytesSnoc(init, front, last);
    }
  }

  /** Nothing is lost or counted twice by the accumulation: the totals of
      the UIDs seen add up to the byte total of all buckets, the figure the
      device-wide reading is made from. */
  lemma {:induction false} PerUidTotalsAddUp(buckets: seq<Bucket>)
    ensures SumOfUidBytes(FirstSeen(Uids(buckets)), buckets) == TotalBytes(buckets)
  {
    if buckets != [] {
      var front, last := buckets[..|buckets| - 1], buckets[|buckets| - 1];
      assert buckets == front + [last];
      PerUidTotalsAddUp(front);
      var seen := FirstSeen(Uids(front));
      FirstSeenSpec(Uids(front));
      SumOfUidBytesSnoc(seen, front, last);
      assert TotalBytes(buckets) == TotalBytes(front) + Bytes(last);
      assert Uids(buckets) == Uids(front) + [last.uid];
      FirstSeenSnoc(Uids(front), last.uid);
      if last.uid !in seen {
        var grown := seen + [last.uid];
        assert FirstSeen(Uids(buckets)) == grown;
        assert grown[..|grown| - 1] == seen;
        assert SumOfUidBytes(grown, buckets) == SumOfUidBytes(seen, buckets) + UidBytes(buckets, last.uid);
        UidBytesUnseen(front, last.uid);
        assert UidBytes(buckets, last.uid) == Bytes(last);
      }
    }
  }

  /** The map after a prefix of the cursor: its keys are the UIDs seen so
      far, in first-seen order, and each UID maps to its running total. */
  ghost predicate Accumulated(appUsageMap: LinkedMap<int, int>, prefix: seq<Bucket>) {
    && appUsageMap.Valid()
    && appUsageMap.keys == FirstSeen(Uids(prefix))
    && forall uid :: UidBytes(prefix, uid) == Lookup(appUsageMap.values, uid).GetOr(0)
  }

  /** One turn of the accumulation loop keeps the map in step with the cursor. */
  lemma AccumulateStep(before: LinkedMap<int, int>, buckets: seq<Bucket>, i: int, after: LinkedMap<int, int>)
    requires 0 <= i < |buckets|
    requires Accumulated(before, buckets[..i])
    requires after == before.Put(buckets[i].uid, Lookup(before.values, buckets[i].uid).GetOr(0) + Bytes(buckets[i]))
    ensures Accumulated(after, buckets[..i + 1])
  {
    var prefix, bucket := buckets[..i], buckets[i];
    var next := buckets[..i + 1];
    assert next[..|next| - 1] == prefix;
    assert next[|next| - 1] == bucket;
    AccumulateKeys(before, prefix, bucket, next, after);
    AccumulateTotals(before.values, prefix, bucket, next, after.values);
  }

  /** The key order after one bucket: its UID goes last if new. */
  lemma AccumulateKeys(before: LinkedMap<int, int>, prefix: seq<Bucket>, bucket: Bucket, next: seq<Bucket>,
                       after: LinkedMap<int, int>)
    requires before.Valid() && before.keys == FirstSeen(Uids(prefix))
    requires next != [] && next[..|next| - 1] == prefix && next[|next| - 1] == bucket
    requires bucket.uid in after.values && after.values == before.values[bucket.uid := after.values[bucket.uid]]
    requires after.keys == if bucket.uid in before.values then before.keys else before.keys + [bucket.uid]
    ensures after.Valid() && after.keys == FirstSeen(Uids(next))
  {
    assert Uids(next) == Uids(prefix) + [bucket.uid];
    FirstSeenSnoc(Uids(prefix), bucket.uid);
    FirstSeenSpec(Uids(next));
    assert bucket.uid in before.values <==> bucket.uid in FirstSeen(Uids(prefix));
  }

  /** The running totals after one bucket: its bytes go to its UID only. */
  lemma AccumulateTotals(before: map<int, int>, prefix: seq<Bucket>, bucket: Bucket, next: seq<Bucket>,
                         after: map<int, int>)
    requires forall uid :: UidBytes(prefix, uid) == Lookup(before, uid).GetOr(0)
    requires next != [] && next[..|next| - 1] == prefix && next[|next| - 1] == bucket
    requires after == before[bucket.uid := Lookup(before, bucket.uid).GetOr(0) + Bytes(bucket)]
    ensures forall uid :: UidBytes(next, uid) == Lookup(after, uid).GetOr(0)
  {
    forall uid
      ensures UidBytes(next, uid) == Lookup(after, uid).GetOr(0)
    {
      assert UidBytes(next, uid) == UidBytes(prefix, uid) + (if bucket.uid == uid then Bytes(bucket) else 0);
      assert UidBytes(prefix, uid) == Lookup(before, uid).GetOr(0);
    }
  }

  /** The `while (stats.hasNextBucket())` loop: `appUsageMap[uid] =
      (appUsageMap[uid] ?: 0L) + bytesTotal`. Its keys are exactly the UIDs
      seen, in first-seen order, and each value is that UID's byte total. */
  method AccumulateByUid(buckets: seq<Bucket>) returns (appUsageMap: LinkedMap<int, int>)
    ensures appUsageMap.Valid()
    ensures appUsageMap.keys == FirstSeen(Uids(buckets))
    ensures forall uid :: uid in appUsageMap.values <==> uid in Uids(buckets)
    ensures forall uid :: uid in appUsageMap.values ==> appUsageMap.values[uid] == UidBytes(buckets, uid)
  {
    appUsageMap := Empty();
    var i := 0;
    while i < |buckets|
      invariant 0 <= i <= |buckets|
      invariant Accumulated(appUsageMap, buckets[..i])
    {
      var bucket := buckets[i];
      var bytesTotal := bucket.rxBytes + bucket.txBytes;
      ghost var before := appUsageMap;
      appUsageMap := appUsageMap.Put(bucket.uid, Lookup(appUsageMap.values, bucket.uid).GetOr(0) + bytesTotal);
      AccumulateStep(before, buckets, i, appUsageMap);
      i := i + 1;
    }
    assert buckets[..i] == buckets;
    AccumulatedAll(appUsageMap, buckets);
  }

  /** Once the whole cursor is folded in, the keys are exactly the UIDs seen
      and each value is its UID's total. */
  lemma AccumulatedAll(appUsageMap: LinkedMap<int, int>, buckets: seq<Bucket>)
    requires Accumulated(appUsageMap, buckets)
    ensures forall uid :: uid in appUsageMap.values <==> uid in Uids(buckets)
    ensures forall uid :: uid in appUsageMap.values ==> appUsageMap.values[uid] == UidBytes(buckets, uid)
  {
    FirstSeenSpec(Uids(buckets));
    forall uid | uid in appUsageMap.values
      ensures appUsageMap.values[uid] == UidBytes(buckets, uid)
    {
      assert Lookup(appUsageMap.values, uid).GetOr(0) == UidBytes(buckets, uid);
    }
  }

  // ---------------------------------------------------------------------
  // From UID totals to records

  /** A UID yields a record: it is an application UID, the package manager
      names at least one package for it, and the first package resolves. */
  predicate Survives(uid: int, pm: PackageManager) {
    && uid > FIRST_APPLICATION_UID
    && uid in pm.packagesForUid
    && |pm.packagesForUid[uid]| > 0
    && pm.packagesForUid[uid][0] in pm.labels
  }

  /** The UIDs of `uids` that yield a record, in the same order. */
  function Surviving(uids: seq<int>, pm: PackageManager): (kept: seq<int>)
    ensures forall uid :: uid in kept <==> uid in uids && Survives(uid, pm)
  {
    if uids == [] then []
    else
      var last := uids[|uids| - 1];
      Surviving(uids[..|uids| - 1], pm) + (if Survives(last, pm) then [last] else [])
  }

  /** Filtering a list without repeats leaves a list without repeats. */
  lemma {:induction false} SurvivingDistinct(uids: seq<int>, pm: PackageManager)
    requires Distinct(uids)
    ensures Distinct(Surviving(uids, pm))
  {
    if uids != [] {
      var front := uids[..|uids| - 1];
      assert Distinct(front);
      SurvivingDistinct(front, pm);
      assert uids[|uids| - 1] !in front;
    }
  }

  /** The record a surviving UID yields: its first package, that package's
      label, its byte total in megabytes, and whether an icon loads. */
  function AppRecord(uid: int, bytes: int, pm: PackageManager): AppUsage
    requires Survives(uid, pm)
  {
    var packageName := pm.packagesForUid[uid][0];
    AppUsage(packageName, pm.labels[packageName], ToMB(bytes), packageName in pm.icons)
  }

  /** `appsUsage` holds, in order, the record of each UID of `kept`. */
  ghost predicate RecordsOf(appsUsage: seq<AppUsage>, kept: seq<int>, values: map<int, int>, pm: PackageManager) {
    && |appsUsage| == |kept|
    && forall k :: 0 <= k < |kept| ==>
         kept[k] in values && Survives(kept[k], pm) && appsUsage[k] == AppRecord(kept[k], values[kept[k]], pm)
  }

  /** One turn of the record loop: a surviving UID appends its record, any
      other UID appends nothing. */
  lemma RecordStep(appsUsage: seq<AppUsage>, keys: seq<int>, j: int, values: map<int, int>, pm: PackageManager)
    requires 0 <= j < |keys| && keys[j] in values
    requires RecordsOf(appsUsage, Surviving(keys[..j], pm), values, pm)
    ensures Survives(keys[j], pm) ==>
      RecordsOf(appsUsage + [AppRecord(keys[j], values[keys[j]], pm)], Surviving(keys[..j + 1], pm), values, pm)
    ensures !Survives(keys[j], pm) ==> RecordsOf(appsUsage, Surviving(keys[..j + 1], pm), values, pm)
  {
    assert keys[..j + 1][..j] == keys[..j];
  }

  /** The `for ((uid, bytes) in appUsageMap)` loop: one record per surviving
      UID, in the map's order. */
  method BuildRecords(appUsageMap: LinkedMap<int, int>, pm: PackageManager) returns (appsUsage: seq<AppUsage>)
    requires appUsageMap.Valid()
    ensures var kept := Surviving(appUsageMap.keys, pm);
      && |appsUsage| == |kept|
      && forall k :: 0 <= k < |kept| ==>
           kept[k] in appUsageMap.values && appsUsage[k] == AppRecord(kept[k], appUsageMap.values[kept[k]], pm)
  {
    appsUsage := [];
    var keys := appUsageMap.keys;
    var j := 0;
    while j < |keys|
      invariant 0 <= j <= |keys|
      invariant RecordsOf(appsUsage, Surviving(keys[..j], pm), appUsageMap.values, pm)
    {
      var uid := keys[j];
      var bytes := appUsageMap.values[uid];
      RecordStep(appsUsage, keys, j, appUsageMap.values, pm);
      if uid <= FIRST_APPLICATION_UID {
        // a system UID
      } else if uid in pm.packagesForUid && |pm.packagesForUid[uid]| > 0 {
        var packageName := pm.packagesForUid[uid][0];
        if packageName in pm.labels {
          var appName := pm.labels[packageName];
          var usageMB := ToMB(bytes);
          appsUsage := appsUsage + [AppUsage(packageName, appName, usageMB, packageName in pm.icons)];
        }
      }
      j := j + 1;
    }
    assert keys[..j] == keys;
  }

  /** The UIDs that yield a record, each once, in first-seen order: exactly
      the application UIDs seen in the summary that the package manager can
      name. */
  function SurvivingUids(buckets: seq<Bucket>, pm: PackageManager): (kept: seq<int>)
    ensures Distinct(kept)
    ensures forall uid :: uid in kept <==> uid in Uids(buckets) && Survives(uid, pm)
  {
    FirstSeenSpec(Uids(buckets));
    SurvivingDistinct(FirstSeen(Uids(buckets)), pm);
    Surviving(FirstSeen(Uids(buckets)), pm)
  }

  /** The list one transport yields for a summary that was returned. */
  function AppRecords(buckets: seq<Bucket>, pm: PackageManager): (apps: seq<AppUsage>)
    ensures var kept := SurvivingUids(buckets, pm);
      |apps| == |kept| && forall k :: 0 <= k < |kept| ==> apps[k] == AppRecord(kept[k], UidBytes(buckets, kept[k]), pm)
  {
    var kept := SurvivingUids(buckets, pm);
    seq(|kept|, k requires 0 <= k < |kept| => AppRecord(kept[k], UidBytes(buckets, kept[k]), pm))
  }

  /** No figure of a per-app list is negative. */
  predicate UsageNonNegative(apps: seq<AppUsage>) {
    forall i :: 0 <= i < |apps| ==> apps[i].usageMB >= 0.0
  }

  /** A UID's total over non-negative counters is never negative. */
  lemma {:induction false} UidBytesNonNegative(buckets: seq<Bucket>, uid: int)
    requires NonNegative(buckets)
    ensures UidBytes(buckets, uid) >= 0
  {
    if buckets != [] {
      var front := buckets[..|buckets| - 1];
      assert NonNegative(front) by {
        forall i | 0 <= i < |front| ensures front[i] == buckets[i] { }
      }
      UidBytesNonNegative(front, uid);
    }
  }

  /** Aggregation never yields a negative per-app figure: over non-negative
      counters every record's megabytes are non-negative. */
  lemma AppRecordsNonNegative(buckets: seq<Bucket>, pm: PackageManager)
    requires NonNegative(buckets)
    ensures UsageNonNegative(AppRecords(buckets, pm))
  {
    var apps, kept := AppRecords(buckets, pm), SurvivingUids(buckets, pm);
    forall k | 0 <= k < |apps|
      ensures apps[k].usageMB >= 0.0
    {
      UidBytesNonNegative(buckets, kept[k]);
    }
  }

  /** Every record comes from an application UID seen in the summary: no
      system UID and no unnamed UID yields one, and its figures are that
      UID's byte total and first package. */
  lemma RecordsComeFromApplicationUids(buckets: seq<Bucket>, pm: PackageManager, k: int)
    requires 0 <= k < |AppRecords(buckets, pm)|
    ensures var uid := SurvivingUids(buckets, pm)[k];
      && uid > FIRST_APPLICATION_UID
      && uid in Uids(buckets)
      && |pm.packagesForUid[uid]| > 0
      && AppRecords(buckets, pm)[k].packageName == pm.packagesForUid[uid][0]
      && AppRecords(buckets, pm)[k].usageMB == ToMB(UidBytes(buckets, uid))
  {
    var kept := SurvivingUids(buckets, pm);
    assert kept[k] in kept;
  }

  /** The list one transport yields on a device: empty without permission,
      below API level M, or when the summary query throws. */
  function AppsUsage(device: Device, transport: Transport, pm: PackageManager, window: Window): seq<AppUsage> {
    if !DataUsageCalculator.MayQuery(device) then []
    else
      match device.querySummary(transport, window)
      case Threw(_) => []
      case Returned(buckets) => AppRecords(buckets, pm)
  }

  /** `getAppsWifiDataUsage` (transport Wifi) and `getAppsMobileDataUsage`
      (transport Mobile): the two differ only in the transport they query. */
  method GetAppsDataUsage(device: Device, transport: Transport, pm: PackageManager, now: int, timeRangeInHours: int)
    returns (appsUsage: seq<AppUsage>)
    ensures appsUsage == AppsUsage(device, transport, pm, LastHours(now, timeRangeInHours))
    ensures !DataUsageCalculator.HasUsageStatsPermission(device.usageStatsMode) ==> appsUsage == []
  {
    if !DataUsageCalculator.HasUsageStatsPermission(device.usageStatsMode) || device.sdk < SDK_M {
      return [];
    }
    match device.querySummary(transport, LastHours(now, timeRangeInHours)) {
      case Threw(_) =>
        appsUsage := [];
      case Returned(buckets) =>
        var appUsageMap := AccumulateByUid(buckets);
        appsUsage := BuildRecords(appUsageMap, pm);
        assert appUsageMap.keys == FirstSeen(Uids(buckets));
    }
  }

  // ---------------------------------------------------------------------
  // Merging the Wi-Fi and mobile lists by package name

  /** `AppUsageInfo`: one entry of `totalUsageMap`. */
  datatype AppUsageInfo = AppUsageInfo(packageName: string, appName: string, wifiMB: real, mobileMB: real)

  /** One entry of the merged list: {packageName, appName, wifiUsageMB,
      mobileUsageMB, totalUsageMB}. */
  datatype AppTotalUsage = AppTotalUsage(
    packageName: string, appName: string, wifiUsageMB: real, mobileUsageMB: real, totalUsageMB: real)

  function PackageNames(apps: seq<AppUsage>): (names: seq<string>)
    ensures |names| == |apps|
    ensures forall i :: 0 <= i < |apps| ==> names[i] == apps[i].packageName
  {
    if apps == [] then []
    else PackageNames(apps[..|apps| - 1]) + [apps[|apps| - 1].packageName]
  }

  /** The last record of the list for `pkg`. */
  function LastFor(apps: seq<AppUsage>, pkg: string): Option<AppUsage> {
    if apps == [] then None
    else if apps[|apps| - 1].packageName == pkg then Some(apps[|apps| - 1])
    else LastFor(apps[..|apps| - 1], pkg)
  }

  /** The first record of the list for `pkg`. */
  function FirstFor(apps: seq<AppUsage>, pkg: string): Option<AppUsage> {
    if apps == [] then None
    else
      var earlier := FirstFor(apps[..|apps| - 1], pkg);
      if earlier.Some? then earlier
      else if apps[|apps| - 1].packageName == pkg then Some(apps[|apps| - 1])
      else None
  }

  /** A package has a record in a list exactly when it is named in it, and
      then its first and last records carry its name. */
  lemma {:induction false} RecordForIffNamed(apps: seq<AppUsage>, pkg: string)
    ensures LastFor(apps, pkg).Some? <==> pkg in PackageNames(apps)
    ensures FirstFor(apps, pkg).Some? <==> pkg in PackageNames(apps)
    ensures LastFor(apps, pkg).Some? ==> LastFor(apps, pkg).value.packageName == pkg
    ensures FirstFor(apps, pkg).Some? ==> FirstFor(apps, pkg).value.packageName == pkg
  {
    if apps != [] {
      var front := apps[..|apps| - 1];
      RecordForIffNamed(front, pkg);
      assert PackageNames(apps) == PackageNames(front) + [apps[|apps| - 1].packageName];
    }
  }

  /** The record picked for a package is one of the list's records. */
  lemma {:induction false} RecordForIsListed(apps: seq<AppUsage>, pkg: string)
    ensures LastFor(apps, pkg).Some? ==> LastFor(apps, pkg).value in apps
    ensures FirstFor(apps, pkg).Some? ==> FirstFor(apps, pkg).value in apps
  {
    if apps != [] {
      var front := apps[..|apps| - 1];
      RecordForIsListed(front, pkg);
      assert forall a :: a in front ==> a in apps;
    }
  }

  /** The mobile figure `totalUsageMap` ends up holding for `pkg`: the last
      mobile record's, because each later one is assigned over the earlier;
      0.0 when the package has no mobile record. */
  function MobileMB(mobile: seq<AppUsage>, pkg: string): real {
    match LastFor(mobile, pkg)
    case Some(m) => m.usageMB
    case None => 0.0
  }

  /** The entry `totalUsageMap` holds for `pkg` once the Wi-Fi list and then
      the mobile list have been folded in. A Wi-Fi record replaces the whole
      entry, so the last Wi-Fi record gives the name and the Wi-Fi figure; a
      package first met in the mobile list takes the name of its first mobile
      record and a Wi-Fi figure of 0.0. */
  function MergedInfo(pkg: string, wifi: seq<AppUsage>, mobile: seq<AppUsage>): Option<AppUsageInfo> {
    match LastFor(wifi, pkg)
    case Some(w) => Some(AppUsageInfo(pkg, w.appName, w.usageMB, MobileMB(mobile, pkg)))
    case None =>
      match FirstFor(mobile, pkg)
      case Some(m) => Some(AppUsageInfo(pkg, m.appName, 0.0, MobileMB(mobile, pkg)))
      case None => None
  }

  /** The JSON object written for an entry. */
  function ToTotal(info: AppUsageInfo): AppTotalUsage {
    AppTotalUsage(info.packageName, info.appName, info.wifiMB, info.mobileMB, info.wifiMB + info.mobileMB)
  }

  /** What one more Wi-Fi record does to the entry of each package: the
      entry of its own package is replaced outright. */
  lemma WifiStep(pkg: string, wifi: seq<AppUsage>, x: AppUsage)
    ensures MergedInfo(pkg, wifi + [x], []) ==
      if x.packageName == pkg then Some(AppUsageInfo(pkg, x.appName, x.usageMB, 0.0))
      else MergedInfo(pkg, wifi, [])
  {
    assert (wifi + [x])[..|wifi|] == wifi;
  }

  /** What one more mobile record does to the entry of each package: an
      existing entry of its package gets `mobileMB` assigned, a missing one is
      created with Wi-Fi usage 0. */
  lemma MobileStep(pkg: string, wifi: seq<AppUsage>, mobile: seq<AppUsage>, x: AppUsage)
    ensures MergedInfo(pkg, wifi, mobile + [x]) ==
      if x.packageName != pkg then MergedInfo(pkg, wifi, mobile)
      else match MergedInfo(pkg, wifi, mobile)
        case Some(entry) => Some(entry.(mobileMB := x.usageMB))
        case None => Some(AppUsageInfo(pkg, x.appName, 0.0, x.usageMB))
  {
    assert (mobile + [x])[..|mobile|] == mobile;
  }

  /** The state of `totalUsageMap` after the given records have been folded in. */
  ghost predicate Holds(totalUsageMap: LinkedMap<string, AppUsageInfo>, wifi: seq<AppUsage>, mobile: seq<AppUsage>) {
    && totalUsageMap.Valid()
    && totalUsageMap.keys == FirstSeen(PackageNames(wifi) + PackageNames(mobile))
    && forall pkg :: Lookup(totalUsageMap.values, pkg) == MergedInfo(pkg, wifi, mobile)
  }

  /** One step of the Wi-Fi loop keeps `totalUsageMap` in step with MergedInfo. */
  lemma WifiPutHolds(before: LinkedMap<string, AppUsageInfo>, wifi: seq<AppUsage>, i: int,
                     after: LinkedMap<string, AppUsageInfo>)
    requires 0 <= i < |wifi|
    requires Holds(before, wifi[..i], [])
    requires after == before.Put(wifi[i].packageName,
                                 AppUsageInfo(wifi[i].packageName, wifi[i].appName, wifi[i].usageMB, 0.0))
    ensures Holds(after, wifi[..i + 1], [])
  {
    var front, x := wifi[..i], wifi[i];
    assert wifi[..i + 1] == front + [x];
    WifiPutKeys(before, front, x, after.values[x.packageName], after);
    WifiPutValues(before.values, front, x, after.values);
  }

  /** The key order after a Wi-Fi record: its package goes last if new. */
  lemma WifiPutKeys(before: LinkedMap<string, AppUsageInfo>, wifi: seq<AppUsage>, x: AppUsage, v: AppUsageInfo,
                    after: LinkedMap<string, AppUsageInfo>)
    requires before.Valid() && before.keys == FirstSeen(PackageNames(wifi) + PackageNames([]))
    requires after == before.Put(x.packageName, v)
    ensures after.Valid() && after.keys == FirstSeen(PackageNames(wifi + [x]) + PackageNames([]))
  {
    var q := x.packageName;
    var names := PackageNames(wifi) + PackageNames([]);
    assert names == PackageNames(wifi);
    assert (wifi + [x])[..|wifi|] == wifi;
    assert PackageNames(wifi + [x]) == PackageNames(wifi) + [q];
    assert PackageNames(wifi + [x]) + PackageNames([]) == names + [q];
    FirstSeenSnoc(names, q);
    assert q in before.values <==> q in FirstSeen(names);
    if q in before.values {
      assert after.keys == before.keys;
    } else {
      assert after.keys == before.keys + [q];
    }
  }

  /** The entries after a Wi-Fi record are the merged entries with it. */
  lemma WifiPutValues(before: map<string, AppUsageInfo>, wifi: seq<AppUsage>, x: AppUsage,
                      after: map<string, AppUsageInfo>)
    requires forall pkg :: Lookup(before, pkg) == MergedInfo(pkg, wifi, [])
    requires after == before[x.packageName := AppUsageInfo(x.packageName, x.appName, x.usageMB, 0.0)]
    ensures forall pkg :: Lookup(after, pkg) == MergedInfo(pkg, wifi + [x], [])
  {
    forall pkg ensures Lookup(after, pkg) == MergedInfo(pkg, wifi + [x], []) {
      WifiStep(pkg, wifi, x);
      assert Lookup(before, pkg) == MergedInfo(pkg, wifi, []);
    }
  }

  /** The Wi-Fi loop of `getAllAppsDataUsage`:
      `totalUsageMap[packageName] = AppUsageInfo(packageName, appName, wifiMB = usageMB)`. */
  method FoldWifi(wifiUsage: seq<AppUsage>) returns (totalUsageMap: LinkedMap<string, AppUsageInfo>)
    ensures Holds(totalUsageMap, wifiUsage, [])
  {
    totalUsageMap := Empty();
    var i := 0;
    while i < |wifiUsage|
      invariant 0 <= i <= |wifiUsage|
      invariant Holds(totalUsageMap, wifiUsage[..i], [])
    {
      var appData := wifiUsage[i];
      var packageName := appData.packageName;
      ghost var before := totalUsageMap;
      totalUsageMap := totalUsageMap.Put(packageName, AppUsageInfo(packageName, appData.appName, appData.usageMB, 0.0));
      WifiPutHolds(before, wifiUsage, i, totalUsageMap);
      i := i + 1;
    }
    assert wifiUsage[..i] == wifiUsage;
  }

  /** One step of the mobile loop keeps `totalUsageMap` in step with MergedInfo. */
  lemma MobilePutHolds(before: LinkedMap<string, AppUsageInfo>, wifi: seq<AppUsage>, mobile: seq<AppUsage>, j: int,
                       after: LinkedMap<string, AppUsageInfo>)
    requires 0 <= j < |mobile|
    requires Holds(before, wifi, mobile[..j])
    requires after == if mobile[j].packageName in before.values
                      then before.Put(mobile[j].packageName,
                                      before.values[mobile[j].packageName].(mobileMB := mobile[j].usageMB))
                      else before.Put(mobile[j].packageName,
                                      AppUsageInfo(mobile[j].packageName, mobile[j].appName, 0.0, mobile[j].usageMB))
    ensures Holds(after, wifi, mobile[..j + 1])
  {
    var front, x := mobile[..j], mobile[j];
    assert mobile[..j + 1] == front + [x];
    MobilePutKeys(before, wifi, front, x, after.values[x.packageName], after);
    MobilePutValues(before.values, wifi, front, x, after.values);
  }

  /** The key order after a mobile record: its package goes last if new. */
  lemma MobilePutKeys(before: LinkedMap<string, AppUsageInfo>, wifi: seq<AppUsage>, mobile: seq<AppUsage>,
                      x: AppUsage, v: AppUsageInfo, after: LinkedMap<string, AppUsageInfo>)
    requires before.Valid() && before.keys == FirstSeen(PackageNames(wifi) + PackageNames(mobile))
    requires after == before.Put(x.packageName, v)
    ensures after.Valid() && after.keys == FirstSeen(PackageNames(wifi) + PackageNames(mobile + [x]))
  {
    var q := x.packageName;
    var names := PackageNames(wifi) + PackageNames(mobile);
    assert (mobile + [x])[..|mobile|] == mobile;
    assert PackageNames(mobile + [x]) == PackageNames(mobile) + [q];
    assert PackageNames(wifi) + PackageNames(mobile + [x]) == names + [q];
    FirstSeenSnoc(names, q);
    assert q in before.values <==> q in FirstSeen(names);
    if q in before.values {
      assert after.keys == before.keys;
    } else {
      assert after.keys == before.keys + [q];
    }
  }

  /** The entries after a mobile record are the merged entries with it. */
  lemma MobilePutValues(before: map<string, AppUsageInfo>, wifi: seq<AppUsage>, mobile: seq<AppUsage>,
                        x: AppUsage, after: map<string, AppUsageInfo>)
    requires forall pkg :: Lookup(before, pkg) == MergedInfo(pkg, wifi, mobile)
    requires after == if x.packageName in before
                      then before[x.packageName := before[x.packageName].(mobileMB := x.usageMB)]
                      else before[x.packageName := AppUsageInfo(x.packageName, x.appName, 0.0, x.usageMB)]
    ensures forall pkg :: Lookup(after, pkg) == MergedInfo(pkg, wifi, mobile + [x])
  {
    forall pkg ensures Lookup(after, pkg) == MergedInfo(pkg, wifi, mobile + [x]) {
      MobileStep(pkg, wifi, mobile, x);
      assert Lookup(before, pkg) == MergedInfo(pkg, wifi, mobile);
    }
  }

  /** The mobile loop of `getAllAppsDataUsage`: an existing entry has its
      `mobileMB` assigned in place, a new package gets
      `AppUsageInfo(packageName, appName, mobileMB = usageMB)`. */
  method FoldMobile(totalUsageMap0: LinkedMap<string, AppUsageInfo>, ghost wifiUsage: seq<AppUsage>, mobileUsage: seq<AppUsage>)
    returns (totalUsageMap: LinkedMap<string, AppUsageInfo>)
    requires Holds(totalUsageMap0, wifiUsage, [])
    ensures Holds(totalUsageMap, wifiUsage, mobileUsage)
  {
    totalUsageMap := totalUsageMap0;
    var j := 0;
    while j < |mobileUsage|
      invariant 0 <= j <= |mobileUsage|
      invariant Holds(totalUsageMap, wifiUsage, mobileUsage[..j])
    {
      var appData := mobileUsage[j];
      var packageName := appData.packageName;
      ghost var before := totalUsageMap;
      if packageName in totalUsageMap.values {
        var existing := totalUsageMap.values[packageName];
        totalUsageMap := totalUsageMap.Put(packageName, existing.(mobileMB := appData.usageMB));
      } else {
        totalUsageMap := totalUsageMap.Put(packageName, AppUsageInfo(packageName, appData.appName, 0.0, appData.usageMB));
      }
      MobilePutHolds(before, wifiUsage, mobileUsage, j, totalUsageMap);
      j := j + 1;
    }
    assert mobileUsage[..j] == mobileUsage;
  }

  /** The `for (appInfo in totalUsageMap.values)` loop: one object per entry,
      in insertion order. */
  method ToTotals(totalUsageMap: LinkedMap<string, AppUsageInfo>) returns (appsUsage: seq<AppTotalUsage>)
    requires totalUsageMap.Valid()
    ensures |appsUsage| == |totalUsageMap.keys|
    ensures forall k :: 0 <= k < |appsUsage| ==> appsUsage[k] == ToTotal(totalUsageMap.values[totalUsageMap.keys[k]])
  {
    appsUsage := [];
    var k := 0;
    while k < |totalUsageMap.keys|
      invariant 0 <= k <= |totalUsageMap.keys|
      invariant |appsUsage| == k
      invariant forall t :: 0 <= t < k ==> appsUsage[t] == ToTotal(totalUsageMap.values[totalUsageMap.keys[t]])
    {
      var appInfo := totalUsageMap.values[totalUsageMap.keys[k]];
      appsUsage := appsUsage + [ToTotal(appInfo)];
      k := k + 1;
    }
  }

  /** The merge of `getAllAppsDataUsage`: one object per package named in
      either list, in first-seen order, each carrying the entry MergedInfo
      describes. */
  method MergeByPackage(wifiUsage: seq<AppUsage>, mobileUsage: seq<AppUsage>) returns (appsUsage: seq<AppTotalUsage>)
    ensures var order := FirstSeen(PackageNames(wifiUsage) + PackageNames(mobileUsage));
      && |appsUsage| == |order|
      && forall k :: 0 <= k < |order| ==>
           && MergedInfo(order[k], wifiUsage, mobileUsage).Some?
           && appsUsage[k] == ToTotal(MergedInfo(order[k], wifiUsage, mobileUsage).value)
           && appsUsage[k].packageName == order[k]
  {
    var totalUsageMap := FoldWifi(wifiUsage);
    totalUsageMap := FoldMobile(totalUsageMap, wifiUsage, mobileUsage);
    appsUsage := ToTotals(totalUsageMap);
    ghost var order := totalUsageMap.keys;
    forall k | 0 <= k < |order|
      ensures MergedInfo(order[k], wifiUsage, mobileUsage) == Some(totalUsageMap.values[order[k]])
    {
      assert Lookup(totalUsageMap.values, order[k]) == MergedInfo(order[k], wifiUsage, mobileUsage);
    }
  }

  /** A package has a merged entry exactly when it is named in the Wi-Fi or
      the mobile list, so the merged list holds one object per such package. */
  lemma MergedIffNamed(pkg: string, wifi: seq<AppUsage>, mobile: seq<AppUsage>)
    ensures MergedInfo(pkg, wifi, mobile).Some? <==> pkg in PackageNames(wifi) || pkg in PackageNames(mobile)
    ensures pkg in FirstSeen(PackageNames(wifi) + PackageNames(mobile)) <==> pkg in PackageNames(wifi) || pkg in PackageNames(mobile)
    ensures Distinct(FirstSeen(PackageNames(wifi) + PackageNames(mobile)))
  {
    RecordForIffNamed(wifi, pkg);
    RecordForIffNamed(mobile, pkg);
    FirstSeenSpec(PackageNames(wifi) + PackageNames(mobile));
  }

  /** A package seen only on mobile has Wi-Fi usage 0, the name of its first
      mobile record and the figure of its last; one seen only on Wi-Fi has
      mobile usage 0; one seen in both takes its name and Wi-Fi figure from
      its last Wi-Fi record and its mobile figure from its last mobile record,
      assigned, not added. In every case the total is Wi-Fi plus mobile. */
  lemma MergedFigures(pkg: string, wifi: seq<AppUsage>, mobile: seq<AppUsage>)
    requires pkg in PackageNames(wifi) || pkg in PackageNames(mobile)
    ensures LastFor(wifi, pkg).Some? <==> pkg in PackageNames(wifi)
    ensures LastFor(mobile, pkg).Some? <==> pkg in PackageNames(mobile)
    ensures FirstFor(mobile, pkg).Some? <==> pkg in PackageNames(mobile)
    ensures MergedInfo(pkg, wifi, mobile).Some?
    ensures var t := ToTotal(MergedInfo(pkg, wifi, mobile).value);
      && t.packageName == pkg
      && t.totalUsageMB == t.wifiUsageMB + t.mobileUsageMB
      && (pkg !in PackageNames(wifi) ==>
            t.wifiUsageMB == 0.0
            && t.appName == FirstFor(mobile, pkg).value.appName
            && t.mobileUsageMB == LastFor(mobile, pkg).value.usageMB)
      && (pkg !in PackageNames(mobile) ==>
            t.mobileUsageMB == 0.0
            && t.appName == LastFor(wifi, pkg).value.appName
            && t.wifiUsageMB == LastFor(wifi, pkg).value.usageMB)
      && (pkg in PackageNames(wifi) && pkg in PackageNames(mobile) ==>
            t.appName == LastFor(wifi, pkg).value.appName
            && t.wifiUsageMB == LastFor(wifi, pkg).value.usageMB
            && t.mobileUsageMB == LastFor(mobile, pkg).value.usageMB)
  {
    RecordForIffNamed(wifi, pkg);
    RecordForIffNamed(mobile, pkg);
  }

  /** The merge never yields a negative figure: when neither list holds a
      negative figure, every merged entry's Wi-Fi, mobile and total figures
      are non-negative. */
  lemma MergedNonNegative(pkg: string, wifi: seq<AppUsage>, mobile: seq<AppUsage>)
    requires UsageNonNegative(wifi) && UsageNonNegative(mobile)
    requires MergedInfo(pkg, wifi, mobile).Some?
    ensures var t := ToTotal(MergedInfo(pkg, wifi, mobile).value);
      t.wifiUsageMB >= 0.0 && t.mobileUsageMB >= 0.0 && t.totalUsageMB >= 0.0
  {
    RecordForIsListed(wifi, pkg);
    RecordForIsListed(mobile, pkg);
  }

  /** `getAllAppsDataUsage`: both per-transport lists over the same window,
      merged by package name. */
  method GetAllAppsDataUsage(device: Device, pm: PackageManager, now: int, timeRangeInHours: int)
    returns (appsUsage: seq<AppTotalUsage>)
    ensures var window := LastHours(now, timeRangeInHours);
      var wifi := AppsUsage(device, Wifi, pm, window);
      var mobile := AppsUsage(device, Mobile, pm, window);
      var order := FirstSeen(PackageNames(wifi) + PackageNames(mobile));
      && |appsUsage| == |order|
      && forall k :: 0 <= k < |order| ==>
           MergedInfo(order[k], wifi, mobile).Some? && appsUsage[k] == ToTotal(MergedInfo(order[k], wifi, mobile).value)
    ensures !DataUsageCalculator.HasUsageStatsPermission(device.usageStatsMode) ==> appsUsage == []
  {
    var wifiUsage := GetAppsDataUsage(device, Wifi, pm, now, timeRangeInHours);
    var mobileUsage := GetAppsDataUsage(device, Mobile, pm, now, timeRangeInHours);
    appsUsage := MergeByPackage(wifiUsage, mobileUsage);
  }
}
