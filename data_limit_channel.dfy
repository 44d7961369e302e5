/** `DataLimitChannel`: the daily limit and its alert flag, kept in the
    "DataLimitPrefs" preference store, the limit predicate, and the alert
    notification. */
module DataLimitChannel {
  import opened Wrappers
  import opened Platform
  import opened Notifications

  /** `DEFAULT_DAILY_LIMIT`: no limit. */
  const DEFAULT_DAILY_LIMIT: real := 0.0

  /** The alert flag's default: alerts on. */
  const DEFAULT_ALERT_ENABLED: bool := true

  /** The id the limit alert is posted under. */
  const LIMIT_NOTIFICATION_ID: int := 2

  const LIMIT_ALERT_TITLE: string := "Data Usage Limit Exceeded"
  const LIMIT_ALERT_TEXT: string := "You have exceeded your daily data usage limit"

  /** The "DataLimitPrefs" store: the "daily_limit" and "alert_enabled" keys,
      each absent until first written. Both the channel and the activity
      open this same store. */
  class LimitPrefs {
    var dailyLimit: Option<real>
    var alertEnabled: Option<bool>

    constructor ()
      ensures dailyLimit == None && alertEnabled == None
    {
      dailyLimit := None;
      alertEnabled := None;
    }

    /** `getDailyLimit`: the stored limit, 0.0 when none was stored. */
    function GetDailyLimit(): (limit: real)
      reads this
      ensures dailyLimit == None ==> limit == 0.0
    {
      dailyLimit.GetOr(DEFAULT_DAILY_LIMIT)
    }

    /** `isLimitAlertEnabled`: the stored flag, true when none was stored. */
    function IsLimitAlertEnabled(): (enabled: bool)
      reads this
      ensures alertEnabled == None ==> enabled
    {
      alertEnabled.GetOr(DEFAULT_ALERT_ENABLED)
    }

    /** `setDailyLimit`: writes the limit key only. */
    method SetDailyLimit(limitMB: real)
      modifies this
      ensures GetDailyLimit() == limitMB
      ensures dailyLimit == Some(limitMB) && alertEnabled == old(alertEnabled)
    {
      dailyLimit := Some(limitMB);
    }

    /** `setLimitAlertEnabled`: writes the flag key only. */
    method SetLimitAlertEnabled(enabled: bool)
      modifies this
      ensures IsLimitAlertEnabled() == enabled
      ensures alertEnabled == Some(enabled) && dailyLimit == old(dailyLimit)
    {
      alertEnabled := Some(enabled);
    }
  }

  /** `checkIfLimitExceeded` on a given limit: a limit of 0 or less disables
      the check; otherwise usage equal to the limit already counts. */
  function LimitExceeded(limit: real, usageMB: real): (exceeded: bool)
    ensures exceeded <==> 0.0 < limit <= usageMB
  {
    if limit <= 0.0 then false
    else usageMB >= limit
  }

  /** The channel's argument defaults: a missing `limitMB` is 0.0 and a
      missing `enabled` is false. */
  function LimitArgument(call: MethodCall): (limitMB: real)
    ensures call.limitMB == None ==> limitMB == 0.0
    ensures call.limitMB.Some? ==> limitMB == call.limitMB.value
  {
    call.limitMB.GetOr(DEFAULT_DAILY_LIMIT)
  }

  function EnabledArgument(call: MethodCall): (enabled: bool)
    ensures call.enabled == None ==> !enabled
    ensures call.enabled.Some? ==> enabled == call.enabled.value
  {
    call.enabled.GetOr(false)
  }

  /** The method-call handler registered for the limit channel. */
  class LimitChannel {
    const prefs: LimitPrefs
    const notifications: NotificationManager

    constructor (prefs: LimitPrefs, notifications: NotificationManager)
      ensures this.prefs == prefs && this.notifications == notifications
    {
      this.prefs := prefs;
      this.notifications := notifications;
    }

    /** `checkIfLimitExceeded`: the predicate against the stored limit. */
    function CheckIfLimitExceeded(currentUsageMB: real): (exceeded: bool)
      reads this, prefs
      ensures prefs.GetDailyLimit() <= 0.0 ==> !exceeded
      ensures prefs.GetDailyLimit() > 0.0 ==> (exceeded <==> currentUsageMB >= prefs.GetDailyLimit())
    {
      LimitExceeded(prefs.GetDailyLimit(), currentUsageMB)
    }

    /** `sendLimitExceededNotification`: posts the alert under id 2 when
        alerts are enabled, nothing otherwise. */
    method SendLimitExceededNotification()
      modifies notifications
      ensures notifications.shown ==
        if prefs.IsLimitAlertEnabled()
        then old(notifications.shown)[LIMIT_NOTIFICATION_ID := LimitAlert(LIMIT_ALERT_TITLE, LIMIT_ALERT_TEXT)]
        else old(notifications.shown)
    {
      if !prefs.IsLimitAlertEnabled() {
        return;
      }
      notifications.Notify(LIMIT_NOTIFICATION_ID, LimitAlert(LIMIT_ALERT_TITLE, LIMIT_ALERT_TEXT));
    }

    /** `onMethodCall`: the four limit methods, notImplemented otherwise. */
    method OnMethodCall(call: MethodCall) returns (reply: Reply)
      modifies prefs
      ensures call.name == "setDailyLimit" ==>
        reply == Replied(BoolValue(true)) && prefs.dailyLimit == Some(LimitArgument(call))
        && prefs.alertEnabled == old(prefs.alertEnabled)
      ensures call.name == "setLimitAlertEnabled" ==>
        reply == Replied(BoolValue(true)) && prefs.alertEnabled == Some(EnabledArgument(call))
        && prefs.dailyLimit == old(prefs.dailyLimit)
      ensures call.name == "getDailyLimit" ==>
        reply == Replied(DoubleValue(prefs.GetDailyLimit())) && unchanged(prefs)
      ensures call.name == "isLimitAlertEnabled" ==>
        reply == Replied(BoolValue(prefs.IsLimitAlertEnabled())) && unchanged(prefs)
      ensures call.name !in {"setDailyLimit", "getDailyLimit", "setLimitAlertEnabled", "isLimitAlertEnabled"} ==>
        reply == NotImplemented && unchanged(prefs)
    {
      match call.name {
        case "setDailyLimit" =>
          prefs.SetDailyLimit(LimitArgument(call));
          reply := Replied(BoolValue(true));
        case "getDailyLimit" =>
          reply := Replied(DoubleValue(prefs.GetDailyLimit()));
        case "setLimitAlertEnabled" =>
          prefs.SetLimitAlertEnabled(EnabledArgument(call));
          reply := Replied(BoolValue(true));
        case "isLimitAlertEnabled" =>
          reply := Replied(BoolValue(prefs.IsLimitAlertEnabled()));
        case _ =>
          reply := NotImplemented;
      }
    }
  }
}
