/** The check-in classifier and the check-in history store
    (Lynne/utils/checkInStorage.ts). */
module CheckIn {
  import opened Wrappers
  import opened Time

  /** The four lateness statuses, from best to worst. */
  datatype CheckInStatus = OnTime | SlightlyLate | VeryLate | Missed

  /** A check-in record: the status, the instant of the check-in and the
      target instant it was measured against. */
  datatype CheckInData = CheckInData(status: CheckInStatus, timestamp: Instant, targetTime: Instant)

  /** The history: one record per local date key (`YYYY-MM-DD`). */
  type CheckInHistory = map<string, CheckInData>

  /** Upper bounds (inclusive) of the first three statuses, in minutes. */
  const OnTimeLimit := 5
  const SlightlyLateLimit := 15
  const VeryLateLimit := 60
  const Thresholds: seq<int> := [OnTimeLimit, SlightlyLateLimit, VeryLateLimit]

  /** The rank of a status: 0 for on time up to 3 for missed. */
  function Severity(s: CheckInStatus): (n: nat)
    ensures n <= 3
  {
    match s
    case OnTime => 0
    case SlightlyLate => 1
    case VeryLate => 2
    case Missed => 3
  }

  /** `getCheckInStatus`: bucket a difference in minutes. */
  function GetCheckInStatus(timeDiff: int): (r: CheckInStatus)
  {
    if timeDiff <= OnTimeLimit then OnTime
    else if timeDiff <= SlightlyLateLimit then SlightlyLate
    else if timeDiff <= VeryLateLimit then VeryLate
    else Missed
  }

  /** Reference definition of severity: how many of the thresholds the
      difference strictly exceeds. */
  function Exceeded(timeDiff: int, limits: seq<int>): (n: nat)
    ensures n <= |limits|
  {
    if limits == [] then 0
    else (if timeDiff > limits[0] then 1 else 0) + Exceeded(timeDiff, limits[1..])
  }

  /** Each status holds on exactly its own band of differences. */
  lemma StatusBands(timeDiff: int)
    ensures GetCheckInStatus(timeDiff) == OnTime <==> timeDiff <= 5
    ensures GetCheckInStatus(timeDiff) == SlightlyLate <==> 5 < timeDiff <= 15
    ensures GetCheckInStatus(timeDiff) == VeryLate <==> 15 < timeDiff <= 60
    ensures GetCheckInStatus(timeDiff) == Missed <==> 60 < timeDiff
  {
  }

  /** The classifier agrees with the reference definition: the severity of
      the status is the number of thresholds exceeded. */
  lemma StatusCountsThresholds(timeDiff: int)
    ensures Severity(GetCheckInStatus(timeDiff)) == Exceeded(timeDiff, Thresholds)
  {
    assert Thresholds[1..] == [SlightlyLateLimit, VeryLateLimit];
    assert Thresholds[1..][1..] == [VeryLateLimit];
    assert Thresholds[1..][1..][1..] == [];
    var last := if timeDiff > VeryLateLimit then 1 else 0;
    assert Exceeded(timeDiff, [VeryLateLimit]) == last;
    var middle := if timeDiff > SlightlyLateLimit then 1 else 0;
    assert Exceeded(timeDiff, [SlightlyLateLimit, VeryLateLimit]) == middle + last;
  }

  /** Severity never decreases as the difference grows. */
  lemma StatusMonotone(a: int, b: int)
    requires a <= b
    ensures Severity(GetCheckInStatus(a)) <= Severity(GetCheckInStatus(b))
  {
  }

  /** The boundary values: each limit belongs to the milder status. */
  lemma StatusBoundaries()
    ensures GetCheckInStatus(5) == OnTime && GetCheckInStatus(6) == SlightlyLate
    ensures GetCheckInStatus(15) == SlightlyLate && GetCheckInStatus(16) == VeryLate
    ensures GetCheckInStatus(60) == VeryLate && GetCheckInStatus(61) == Missed
  {
  }

  /** The difference the home screen classifies: the distance between the
      two times of day, ignoring the dates. */
  function CheckInDiff(timestamp: Instant, targetTime: Instant): (d: nat)
    ensures d < MinutesPerDay
    ensures d == 0 <==> TimeOfDay(timestamp) == TimeOfDay(targetTime)
  {
    var diff := TimeOfDay(timestamp) - TimeOfDay(targetTime);
    if diff < 0 then -diff else diff
  }

  /** Every stored record carries the status its own two instants give. */
  ghost predicate Consistent(h: CheckInHistory)
  {
    forall date :: date in h ==>
      h[date].status == GetCheckInStatus(CheckInDiff(h[date].timestamp, h[date].targetTime))
  }

  /** `getCheckInHistory` on a successful read: what is stored, or the empty
      history when the key is absent. */
  function LoadHistory(stored: Option<CheckInHistory>): CheckInHistory
  {
    match stored
    case None => map[]
    case Some(h) => h
  }

  /** The history after `history[date] = {status, timestamp, targetTime}`. */
  function WithCheckIn(h: CheckInHistory, date: string, status: CheckInStatus,
                       timestamp: Instant, targetTime: Instant): (r: CheckInHistory)
    ensures date in r && r[date] == CheckInData(status, timestamp, targetTime)
    ensures r.Keys == h.Keys + {date}
    ensures forall d :: d in h && d != date ==> r[d] == h[d]
  {
    h[date := CheckInData(status, timestamp, targetTime)]
  }

  /** Saving the same entry twice gives the history that saving it once gives. */
  lemma SaveIdempotent(h: CheckInHistory, date: string, s: CheckInStatus, t: Instant, g: Instant)
    ensures WithCheckIn(WithCheckIn(h, date, s, t, g), date, s, t, g) == WithCheckIn(h, date, s, t, g)
  {
  }

  /** A later save of the same date replaces the earlier one entirely. */
  lemma SaveLastWriterWins(h: CheckInHistory, date: string,
                           s1: CheckInStatus, t1: Instant, g1: Instant,
                           s2: CheckInStatus, t2: Instant, g2: Instant)
    ensures WithCheckIn(WithCheckIn(h, date, s1, t1, g1), date, s2, t2, g2)
         == WithCheckIn(h, date, s2, t2, g2)
  {
  }

  /** Saves to two different dates do not interfere. */
  lemma SavesCommute(h: CheckInHistory, d1: string, s1: CheckInStatus, t1: Instant, g1: Instant,
                     d2: string, s2: CheckInStatus, t2: Instant, g2: Instant)
    requires d1 != d2
    ensures WithCheckIn(WithCheckIn(h, d1, s1, t1, g1), d2, s2, t2, g2)
         == WithCheckIn(WithCheckIn(h, d2, s2, t2, g2), d1, s1, t1, g1)
  {
  }

  /** A record classified the way the home screen classifies it keeps the
      history consistent. */
  lemma SavePreservesConsistency(h: CheckInHistory, date: string, t: Instant, g: Instant)
    requires Consistent(h)
    ensures Consistent(WithCheckIn(h, date, GetCheckInStatus(CheckInDiff(t, g)), t, g))
  {
  }

  /** The value stored under the `checkin_history` key. */
  class CheckInStore {
    /** None until the first successful save. */
    var stored: Option<CheckInHistory>

    /** A fresh install: nothing is stored. */
    constructor ()
      ensures stored == None
    {
      stored := None;
    }

    /** `getCheckInHistory`.  `readFails` stands for a storage or parse
        error, which is caught and turned into the empty history. */
    method GetCheckInHistory(readFails: bool) returns (h: CheckInHistory)
      ensures readFails || stored.None? ==> h == map[]
      ensures !readFails && stored.Some? ==> h == stored.value
    {
      if readFails {
        h := map[];
      } else {
        h := LoadHistory(stored);
      }
    }

    /** `saveCheckIn`: read the history, overwrite `date`, write it all back.
        A failed read inside this call yields the empty history, so the write
        then keeps only the new entry; a failed write changes nothing. */
    method SaveCheckIn(date: string, status: CheckInStatus, timestamp: Instant, targetTime: Instant,
                       readFails: bool, writeFails: bool)
      modifies this
      ensures writeFails ==> stored == old(stored)
      ensures !writeFails ==>
        stored == Some(WithCheckIn(if readFails then map[] else LoadHistory(old(stored)), date, status, timestamp, targetTime))
    {
      var history := GetCheckInHistory(readFails);
      history := history[date := CheckInData(status, timestamp, targetTime)];
      if !writeFails {
        stored := Some(history);
      }
    }
  }

  /** A save followed by a read returns the saved record under `date` and
      every other record as it was. */
  method SaveThenRead(store: CheckInStore, date: string, s: CheckInStatus, t: Instant, g: Instant)
    returns (h: CheckInHistory)
    modifies store
    ensures date in h && h[date] == CheckInData(s, t, g)
    ensures h.Keys == LoadHistory(old(store.stored)).Keys + {date}
    ensures forall d :: d in LoadHistory(old(store.stored)) && d != date ==> h[d] == LoadHistory(old(store.stored))[d]
  {
    store.SaveCheckIn(date, s, t, g, false, false);
    h := store.GetCheckInHistory(false);
  }
}
