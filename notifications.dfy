/** Notification settings and reminder scheduling
    (Lynne/utils/notificationService.ts).  The platform's queue of scheduled
    notifications is a field holding the trigger instants in the order they
    were scheduled. */
module Notifications {
  import opened Wrappers
  import opened Time

  datatype NotificationSettings = NotificationSettings(
    preNotificationTime: int,   // minutes before the target time
    reminderInterval: int,      // minutes between follow-up reminders
    stopRemindersAfterCheckIn: bool)

  const DefaultSettings := NotificationSettings(10, 10, true)

  /** At most this many follow-up reminders are scheduled. */
  const MaxFollowUps := 6

  /** What a scheduled notification announces; its text is not modelled. */
  datatype TriggerKind = PreNotification | MainNotification | FollowUp(index: nat)

  datatype Trigger = Trigger(kind: TriggerKind, at: Instant)

  /** The target's time of day, on the day of `now`. */
  function MainTime(targetTime: Instant, now: Instant): Instant
  {
    StartOfDay(now) + TimeOfDay(targetTime)
  }

  /** The main trigger lies on the date of `now`, at the target's time of day. */
  lemma MainTimeOnToday(targetTime: Instant, now: Instant)
    ensures StartOfDay(MainTime(targetTime, now)) == StartOfDay(now)
    ensures TimeOfDay(MainTime(targetTime, now)) == TimeOfDay(targetTime)
  {
    var r := TimeOfDay(targetTime);
    var days := now / MinutesPerDay;
    assert StartOfDay(now) == days * MinutesPerDay;
    ShiftByDays(r, days);
    assert TimeOfDay(r) == r;
    assert StartOfDay(r) == 0;
  }

  function PreTime(targetTime: Instant, settings: NotificationSettings, now: Instant): Instant
  {
    MainTime(targetTime, now) - settings.preNotificationTime
  }

  /** The first `n` follow-ups after `main`, the k-th at `main + k * interval`. */
  function FollowUps(main: Instant, interval: int, n: nat): (r: seq<Trigger>)
    ensures |r| == n
  {
    seq(n, k requires 0 <= k => Trigger(FollowUp(k + 1), main + interval * (k + 1)))
  }

  /** Everything `scheduleNotifications` leaves in the queue, in order. */
  function Schedule(targetTime: Instant, settings: NotificationSettings, now: Instant): seq<Trigger>
  {
    var main := MainTime(targetTime, now);
    var pre := PreTime(targetTime, settings, now);
    (if pre > now then [Trigger(PreNotification, pre)] else [])
    + [Trigger(MainNotification, main)]
    + (if settings.reminderInterval > 0 then FollowUps(main, settings.reminderInterval, MaxFollowUps) else [])
  }

  /** Where the main trigger sits: after the pre-notification, if any. */
  function MainIndex(targetTime: Instant, settings: NotificationSettings, now: Instant): nat
  {
    if PreTime(targetTime, settings, now) > now then 1 else 0
  }

  /** The queue holds the optional pre-notification, the main notification
      and either six follow-ups or none: between one and eight triggers, and
      one or two when reminders are off. */
  lemma ScheduleLength(targetTime: Instant, settings: NotificationSettings, now: Instant)
    ensures |Schedule(targetTime, settings, now)| ==
              MainIndex(targetTime, settings, now) + 1 + (if settings.reminderInterval > 0 then MaxFollowUps else 0)
    ensures 1 <= |Schedule(targetTime, settings, now)| <= 8
    ensures settings.reminderInterval <= 0 ==> 1 <= |Schedule(targetTime, settings, now)| <= 2
  {
  }

  /** The main notification is always scheduled, exactly once, at the
      target's time of day on today's date. */
  lemma ScheduleMain(targetTime: Instant, settings: NotificationSettings, now: Instant)
    ensures var q := Schedule(targetTime, settings, now);
            var m := MainIndex(targetTime, settings, now);
            && m < |q|
            && q[m] == Trigger(MainNotification, MainTime(targetTime, now))
            && StartOfDay(q[m].at) == StartOfDay(now)
            && TimeOfDay(q[m].at) == TimeOfDay(targetTime)
            && forall k :: 0 <= k < |q| && q[k].kind == MainNotification ==> k == m
  {
    var q := Schedule(targetTime, settings, now);
    var m := MainIndex(targetTime, settings, now);
    ScheduleLength(targetTime, settings, now);
    MainTimeOnToday(targetTime, now);
  }

  /** A pre-notification is scheduled if and only if its instant is still
      in the future; it is then the first trigger, ahead of the main one. */
  lemma SchedulePre(targetTime: Instant, settings: NotificationSettings, now: Instant)
    ensures var q := Schedule(targetTime, settings, now);
            (exists k :: 0 <= k < |q| && q[k].kind == PreNotification)
            <==> PreTime(targetTime, settings, now) > now
    ensures var q := Schedule(targetTime, settings, now);
            PreTime(targetTime, settings, now) > now ==>
              q[0] == Trigger(PreNotification, MainTime(targetTime, now) - settings.preNotificationTime)
              && q[1].kind == MainNotification
  {
    var q := Schedule(targetTime, settings, now);
    var m := MainIndex(targetTime, settings, now);
    ScheduleLength(targetTime, settings, now);
    if PreTime(targetTime, settings, now) <= now {
      forall k | 0 <= k < |q|
        ensures q[k].kind != PreNotification
      {
        if k > m {
          assert q[k] == FollowUps(MainTime(targetTime, now), settings.reminderInterval, MaxFollowUps)[k - m - 1];
        }
      }
    } else {
      assert q[0].kind == PreNotification;
    }
  }

  /** With a positive interval, the six follow-ups come right after the main
      notification, the i-th at main + i * interval; with none they are absent. */
  lemma ScheduleFollowUps(targetTime: Instant, settings: NotificationSettings, now: Instant)
    ensures var q := Schedule(targetTime, settings, now);
            var m := MainIndex(targetTime, settings, now);
            settings.reminderInterval > 0 ==>
              forall i :: 1 <= i <= MaxFollowUps ==>
                m + i < |q| &&
                q[m + i] == Trigger(FollowUp(i), MainTime(targetTime, now) + settings.reminderInterval * i)
    ensures var q := Schedule(targetTime, settings, now);
            settings.reminderInterval <= 0 ==> forall k :: 0 <= k < |q| ==> !q[k].kind.FollowUp?
  {
    ScheduleLength(targetTime, settings, now);
  }

  /** A queue whose trigger instants strictly increase. */
  predicate StrictlyIncreasing(q: seq<Trigger>)
  {
    forall j, k :: 0 <= j < k < |q| ==> q[j].at < q[k].at
  }

  lemma MulStrictlyMonotone(c: int, a: int, b: int)
    requires c > 0 && a < b
    ensures c * a < c * b
  {
  }

  /** The queue is in time order exactly when no pre-notification is queued
      or the lead time is positive: a non-positive lead time would put the
      pre-notification at or after the main one. */
  lemma ScheduleInTimeOrder(targetTime: Instant, settings: NotificationSettings, now: Instant)
    ensures StrictlyIncreasing(Schedule(targetTime, settings, now)) <==>
            (PreTime(targetTime, settings, now) <= now || settings.preNotificationTime > 0)
  {
    var q := Schedule(targetTime, settings, now);
    var m := MainIndex(targetTime, settings, now);
    var main := MainTime(targetTime, now);
    var d := settings.reminderInterval;
    ScheduleLength(targetTime, settings, now);
    if PreTime(targetTime, settings, now) > now {
      assert q[0].at == main - settings.preNotificationTime && q[1].at == main;
    }
    if PreTime(targetTime, settings, now) <= now || settings.preNotificationTime > 0 {
      forall j, k | 0 <= j < k < |q|
        ensures q[j].at < q[k].at
      {
        if k > m {
          assert q[k].at == main + d * (k - m);
          if j > m {
            assert q[j].at == main + d * (j - m);
            MulStrictlyMonotone(d, j - m, k - m);
          } else {
            MulStrictlyMonotone(d, 0, k - m);
          }
        }
      }
    }
  }

  /** The `notification_settings` key and the platform's notification queue. */
  class NotificationService {
    /** The stored settings; None when nothing is stored. */
    var stored: Option<NotificationSettings>
    /** Every notification currently scheduled for the app, in scheduling order. */
    var scheduled: seq<Trigger>

    constructor ()
      ensures stored == None && scheduled == []
    {
      stored := None;
      scheduled := [];
    }

    /** `getNotificationSettings`: the stored settings, or the defaults when
        nothing is stored or the read fails. */
    method GetNotificationSettings(readFails: bool) returns (s: NotificationSettings)
      ensures readFails || stored.None? ==> s == DefaultSettings
      ensures !readFails && stored.Some? ==> s == stored.value
    {
      if readFails || stored.None? {
        s := DefaultSettings;
      } else {
        s := stored.value;
      }
    }

    /** `saveNotificationSettings`: overwrite the stored settings; a failed
        write is caught and changes nothing. */
    method SaveNotificationSettings(settings: NotificationSettings, writeFails: bool)
      modifies this`stored
      ensures writeFails ==> stored == old(stored)
      ensures !writeFails ==> stored == Some(settings)
    {
      if !writeFails {
        stored := Some(settings);
      }
    }

    /** `scheduleNotifications`: cancel everything, then queue the
        pre-notification (if still in the future), the main notification and
        the follow-ups, relative to today's occurrence of the target time. */
    method ScheduleNotifications(targetTime: Instant, settings: NotificationSettings, now: Instant)
      modifies this`scheduled
      ensures scheduled == Schedule(targetTime, settings, now)
    {
      scheduled := [];
      var scheduledTime := MainTime(targetTime, now);
      var preNotificationTime := scheduledTime - settings.preNotificationTime;
      if preNotificationTime > now {
        scheduled := scheduled + [Trigger(PreNotification, preNotificationTime)];
      }
      scheduled := scheduled + [Trigger(MainNotification, scheduledTime)];
      ghost var upToMain := scheduled;
      if settings.reminderInterval > 0 {
        for i := 1 to MaxFollowUps + 1
          invariant scheduled == upToMain + FollowUps(scheduledTime, settings.reminderInterval, i - 1)
        {
          var reminderTime := scheduledTime + settings.reminderInterval * i;
          scheduled := scheduled + [Trigger(FollowUp(i), reminderTime)];
          assert FollowUps(scheduledTime, settings.reminderInterval, i)
              == FollowUps(scheduledTime, settings.reminderInterval, i - 1) + [Trigger(FollowUp(i), reminderTime)];
        }
      }
    }

    /** `cancelAllNotifications`: the queue is emptied. */
    method CancelAllNotifications()
      modifies this`scheduled
      ensures scheduled == []
    {
      scheduled := [];
    }
  }

  /** Settings written and read back without failures are the ones written. */
  method SaveThenGetSettings(service: NotificationService, settings: NotificationSettings)
    returns (s: NotificationSettings)
    modifies service
    ensures s == settings
  {
    service.SaveNotificationSettings(settings, false);
    s := service.GetNotificationSettings(false);
  }

  /** Scheduling twice leaves only the second schedule: nothing from an
      earlier call survives. */
  method RescheduleReplaces(service: NotificationService, t1: Instant, s1: NotificationSettings,
                            t2: Instant, s2: NotificationSettings, now: Instant)
    modifies service
    ensures service.scheduled == Schedule(t2, s2, now)
  {
    service.ScheduleNotifications(t1, s1, now);
    service.ScheduleNotifications(t2, s2, now);
  }
}
