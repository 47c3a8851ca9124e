/** The calendar conflict checker over the cached calendar snapshot
    (Lynne/utils/googleCalendarService.ts). */
module Calendar {
  import opened Wrappers
  import opened Time

  datatype CalendarEvent = CalendarEvent(summary: string, start: Instant, end: Instant)

  datatype TimeSlot = TimeSlot(start: Instant, end: Instant)

  /** The two alternative times; None stands for `null`. */
  datatype RecommendedTimes = RecommendedTimes(before: Option<Instant>, after: Option<Instant>)

  datatype ConflictRecommendation =
    ConflictRecommendation(conflictEvent: CalendarEvent, recommendedTimes: RecommendedTimes)

  /** The value stored under the `calendar_data` key. */
  datatype CalendarSnapshot = CalendarSnapshot(isConnected: bool, events: seq<CalendarEvent>)

  /** Length of each probe slot, before and after the event. */
  const ProbeLength := 60
  /** Offset from a free probe slot's start to the recommended time. */
  const BeforeOffset := 30
  const AfterOffset := 5

  /** The label reported when an event has no summary. */
  const BusyLabel := "Busy"

  /** The conflict test of `checkForConflicts`: four independent comparisons
      of hours and of minutes; the event's date plays no part. */
  predicate TargetWithinEvent(e: CalendarEvent, target: Instant)
  {
    && HourOf(e.start) <= HourOf(target)
    && HourOf(e.end) >= HourOf(target)
    && MinuteOf(e.start) <= MinuteOf(target)
    && MinuteOf(e.end) >= MinuteOf(target)
  }

  /** `t` lies in the event, both ends included. */
  predicate Contains(e: CalendarEvent, t: Instant)
  {
    e.start <= t <= e.end
  }

  /** The overlap test of `findAvailableSlot`: an endpoint of the slot lies
      in the event. */
  predicate SlotTouches(e: CalendarEvent, slot: TimeSlot)
  {
    Contains(e, slot.start) || Contains(e, slot.end)
  }

  predicate SlotIsFree(events: seq<CalendarEvent>, slot: TimeSlot)
  {
    forall i :: 0 <= i < |events| ==> !SlotTouches(events[i], slot)
  }

  /** `i` is the first event, in stored order, that the target falls in. */
  predicate IsFirstConflict(events: seq<CalendarEvent>, target: Instant, i: int)
  {
    && 0 <= i < |events|
    && TargetWithinEvent(events[i], target)
    && forall j :: 0 <= j < i ==> !TargetWithinEvent(events[j], target)
  }

  predicate NoConflict(events: seq<CalendarEvent>, target: Instant)
  {
    forall i :: 0 <= i < |events| ==> !TargetWithinEvent(events[i], target)
  }

  /** The probe slot of the hour that ends when the event starts. */
  function BeforeSlot(e: CalendarEvent): (s: TimeSlot)
    ensures s.end == e.start && s.end - s.start == ProbeLength
  {
    TimeSlot(e.start - ProbeLength, e.start)
  }

  /** The probe slot of the hour that starts when the event ends. */
  function AfterSlot(e: CalendarEvent): (s: TimeSlot)
    ensures s.start == e.end && s.end - s.start == ProbeLength
  {
    TimeSlot(e.end, e.end + ProbeLength)
  }

  /** `findAvailableSlot`: the slot itself when no event contains either of
      its endpoints, otherwise None. */
  method FindAvailableSlot(events: seq<CalendarEvent>, targetSlot: TimeSlot) returns (r: Option<TimeSlot>)
    ensures r.Some? <==> SlotIsFree(events, targetSlot)
    ensures r.Some? ==> r.value == targetSlot
  {
    for i := 0 to |events|
      invariant forall j :: 0 <= j < i ==> !SlotTouches(events[j], targetSlot)
    {
      var event := events[i];
      if (targetSlot.start >= event.start && targetSlot.start <= event.end)
         || (targetSlot.end >= event.start && targetSlot.end <= event.end)
      {
        return None;
      }
    }
    return Some(targetSlot);
  }

  /** The recommendation `checkForConflicts` builds for the matched event `e`. */
  function Recommendation(events: seq<CalendarEvent>, e: CalendarEvent): ConflictRecommendation
  {
    var before := BeforeSlot(e);
    var after := AfterSlot(e);
    ConflictRecommendation(
      CalendarEvent(if e.summary == "" then BusyLabel else e.summary, e.start, e.end),
      RecommendedTimes(
        if SlotIsFree(events, before) then Some(before.start + BeforeOffset) else None,
        if SlotIsFree(events, after) then Some(after.start + AfterOffset) else None))
  }

  /** The reported event has the matched event's bounds and its summary, or
      "Busy" when the summary is empty. */
  lemma RecommendationReportsEvent(events: seq<CalendarEvent>, e: CalendarEvent)
    ensures Recommendation(events, e).conflictEvent.start == e.start
    ensures Recommendation(events, e).conflictEvent.end == e.end
    ensures e.summary != "" ==> Recommendation(events, e).conflictEvent.summary == e.summary
    ensures e.summary == "" ==> Recommendation(events, e).conflictEvent.summary == BusyLabel
  {
  }

  /** Each recommended time is present exactly when its probe slot is free,
      and then it is 30 minutes before the event's start, or 5 minutes after
      its end. */
  lemma RecommendedTimesOffsets(events: seq<CalendarEvent>, e: CalendarEvent)
    ensures Recommendation(events, e).recommendedTimes.before.Some? <==> SlotIsFree(events, BeforeSlot(e))
    ensures Recommendation(events, e).recommendedTimes.after.Some? <==> SlotIsFree(events, AfterSlot(e))
    ensures Recommendation(events, e).recommendedTimes.before.Some? ==>
              Recommendation(events, e).recommendedTimes.before.value == e.start - BeforeOffset
    ensures Recommendation(events, e).recommendedTimes.after.Some? ==>
              Recommendation(events, e).recommendedTimes.after.value == e.end + AfterOffset
  {
  }

  /** The probe slots always touch the matched event itself: the before-slot
      ends at its start and the after-slot starts at its end.  So for any
      event listed in the snapshot whose start is not after its end, neither
      alternative time is ever offered. */
  lemma RecommendationsAlwaysNull(events: seq<CalendarEvent>, i: int)
    requires 0 <= i < |events|
    requires events[i].start <= events[i].end
    ensures Recommendation(events, events[i]).recommendedTimes == RecommendedTimes(None, None)
  {
    var e := events[i];
    assert SlotTouches(events[i], BeforeSlot(e));
    assert SlotTouches(events[i], AfterSlot(e));
  }

  /** With an event whose start lies after its end (possible only across
      dates, since the conflict test compares hours and minutes alone), an
      alternative can be offered. */
  lemma RecommendationForInvertedEvent()
    ensures var e := CalendarEvent("x", At(1, 14, 0), At(0, 15, 30));
            TargetWithinEvent(e, At(0, 14, 30)) &&
            Recommendation([e], e).recommendedTimes == RecommendedTimes(Some(At(1, 13, 30)), Some(At(0, 15, 35)))
  {
    var e := CalendarEvent("x", At(1, 14, 0), At(0, 15, 30));
    AtComponents(1, 14, 0);
    AtComponents(0, 15, 30);
    AtComponents(0, 14, 30);
    assert !SlotTouches(e, BeforeSlot(e));
    assert !SlotTouches(e, AfterSlot(e));
  }

  /** Moving the event or the target by whole days never changes whether a
      conflict is found. */
  lemma ConflictIgnoresDates(e: CalendarEvent, target: Instant, startDays: int, endDays: int, targetDays: int)
    ensures TargetWithinEvent(e, target) <==>
            TargetWithinEvent(CalendarEvent(e.summary, e.start + startDays * MinutesPerDay,
                                            e.end + endDays * MinutesPerDay),
                              target + targetDays * MinutesPerDay)
  {
    ShiftByDays(e.start, startDays);
    ShiftByDays(e.end, endDays);
    ShiftByDays(target, targetDays);
  }

  /** Per-component comparison misses a target inside an event whenever the
      target's minute exceeds the end's minute: 14:45 lies in 14:00-15:30 but
      is not a conflict; 14:30 is. */
  lemma ComponentwiseComparison()
    ensures var e := CalendarEvent("Project Review", At(0, 14, 0), At(0, 15, 30));
            Contains(e, At(0, 14, 45)) && !TargetWithinEvent(e, At(0, 14, 45)) &&
            TargetWithinEvent(e, At(0, 14, 30))
  {
    AtComponents(0, 14, 0);
    AtComponents(0, 15, 30);
    AtComponents(0, 14, 45);
    AtComponents(0, 14, 30);
  }

  /** The day `new Date(2024, 3, 15)` (15 April 2024) counted from 1 January 1970. */
  const MockDay := 19828

  /** The four events `signInWithGoogle` stores. */
  function MockEvents(): (evs: seq<CalendarEvent>)
    ensures |evs| == 4
    ensures forall i :: 0 <= i < |evs| ==> evs[i].start < evs[i].end
  {
    [ CalendarEvent("Morning Meeting", At(MockDay, 9, 0), At(MockDay, 10, 0)),
      CalendarEvent("Lunch with Team", At(MockDay, 12, 0), At(MockDay, 13, 0)),
      CalendarEvent("Project Review", At(MockDay, 14, 0), At(MockDay, 15, 30)),
      CalendarEvent("Gym", At(MockDay, 17, 0), At(MockDay, 18, 0)) ]
  }

  /** The calendar cache of the app. */
  class CalendarStore {
    /** The value under `calendar_data`; None when nothing is stored. */
    var stored: Option<CalendarSnapshot>

    constructor ()
      ensures stored == None
    {
      stored := None;
    }

    /** `signInWithGoogle`, mock version: store a connected snapshot of the
        four mock events and report success.  `writeFails` stands for a
        storage error, which is caught: nothing changes and the result is false. */
    method SignInWithGoogle(writeFails: bool) returns (ok: bool)
      modifies this
      ensures ok == !writeFails
      ensures ok ==> stored == Some(CalendarSnapshot(true, MockEvents()))
      ensures !ok ==> stored == old(stored)
    {
      if writeFails {
        return false;
      }
      stored := Some(CalendarSnapshot(true, MockEvents()));
      return true;
    }

    /** `checkForConflicts`: the recommendation for the first cached event the
        target falls in, or None when nothing is cached or nothing conflicts.
        `isConnected` is not consulted.  `readFails` stands for a storage or
        parse error, which is caught and gives None. */
    method CheckForConflicts(targetTime: Instant, readFails: bool) returns (r: Option<ConflictRecommendation>)
      ensures readFails || stored.None? ==> r.None?
      ensures !readFails && stored.Some? ==>
                (r.None? <==> NoConflict(stored.value.events, targetTime))
      ensures !readFails && stored.Some? && r.Some? ==>
                exists i :: IsFirstConflict(stored.value.events, targetTime, i) &&
                            r.value == Recommendation(stored.value.events, stored.value.events[i])
    {
      if readFails || stored.None? {
        return None;
      }
      var events := stored.value.events;
      var targetHour := HourOf(targetTime);
      var targetMinute := MinuteOf(targetTime);
      for i := 0 to |events|
        invariant NoConflict(events[..i], targetTime)
      {
        var event := events[i];
        if HourOf(event.start) <= targetHour && HourOf(event.end) >= targetHour
           && MinuteOf(event.start) <= targetMinute && MinuteOf(event.end) >= targetMinute
        {
          var beforeSlot := FindAvailableSlot(events, BeforeSlot(event));
          var afterSlot := FindAvailableSlot(events, AfterSlot(event));
          var conflictEvent := CalendarEvent(if event.summary == "" then BusyLabel else event.summary,
                                             event.start, event.end);
          var before := if beforeSlot.Some? then Some(beforeSlot.value.start + BeforeOffset) else None;
          var after := if afterSlot.Some? then Some(afterSlot.value.start + AfterOffset) else None;
          assert IsFirstConflict(events, targetTime, i);
          return Some(ConflictRecommendation(conflictEvent, RecommendedTimes(before, after)));
        }
        assert events[..i + 1] == events[..i] + [event];
      }
      assert events[..|events|] == events;
      return None;
    }
  }

  /** After the mock sign-in, a check returns a conflict exactly when the
      target falls in one of the four mock events, and never offers an
      alternative time. */
  method SignInThenCheck(store: CalendarStore, targetTime: Instant) returns (r: Option<ConflictRecommendation>)
    modifies store
    ensures r.Some? <==> !NoConflict(MockEvents(), targetTime)
    ensures r.Some? ==> r.value.recommendedTimes == RecommendedTimes(None, None)
  {
    var ok := store.SignInWithGoogle(false);
    r := store.CheckForConflicts(targetTime, false);
    if r.Some? {
      var i :| IsFirstConflict(MockEvents(), targetTime, i) &&
               r.value == Recommendation(MockEvents(), MockEvents()[i]);
      RecommendationsAlwaysNull(MockEvents(), i);
    }
  }
}
