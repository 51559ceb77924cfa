/** The `TimeTracker` object: three dictionaries keyed by member id that
    its methods update in place. Every method that reads the clock takes
    the current instant `now` (seconds) and, for the attendance methods,
    the current day `today` (a day index, day 0 a Monday). Saving to disk
    after each change is not modelled.
 */
module Tracker {
  import opened Records
  import opened Session
  import opened Ledger

  class TimeTracker {
    var data: map<UserId, TrackedUser>
    var attendance: map<UserId, AttendanceRecord>
    var preregistrations: map<UserId, PreregistrationEntry>

    /** The invariant the methods keep: every session record is
        well-formed, and every attendance record has its daily counts
        within the daily cap and non-negative totals. Records loaded from
        disk need not satisfy it, so the methods only promise to keep it. */
    ghost predicate Valid()
      reads this
    {
      && (forall id :: id in data ==> WellFormed(data[id]))
      && (forall id :: id in attendance ==>
            DailyCapped(attendance[id]) && attendance[id].totalAttendance >= 0
            && attendance[id].manualWeeklyAttendance >= 0)
    }

    /** The three stores as loaded. */
    constructor(users: map<UserId, TrackedUser>, ledger: map<UserId, AttendanceRecord>,
                queue: map<UserId, PreregistrationEntry>)
      ensures data == users && attendance == ledger && preregistrations == queue
      ensures (forall id :: id in users ==> WellFormed(users[id]))
           && (forall id :: id in ledger ==>
                 DailyCapped(ledger[id]) && ledger[id].totalAttendance >= 0
                 && ledger[id].manualWeeklyAttendance >= 0)
           ==> Valid()
    {
      data := users;
      attendance := ledger;
      preregistrations := queue;
    }

    // ---------------------------------------------------------------
    // The session state machine
    // ---------------------------------------------------------------

    /** `start_tracking`: an unknown member gets a fresh record (which can
        always start); a known member starts only when neither active nor
        paused, and a refused start changes nothing. */
    method StartTracking(id: UserId, name: string, now: int) returns (ok: bool)
      modifies this
      ensures ok <==> (id !in old(data) || CanStart(old(data)[id]))
      ensures ok ==> data == old(data)[id := StartedAt(RecordFor(old(data), id, name), name, now)]
      ensures !ok ==> data == old(data)
      ensures attendance == old(attendance) && preregistrations == old(preregistrations)
      ensures old(Valid()) ==> Valid()
    {
      if id !in data {
        data := data[id := NewRecord(name)];
      }
      var u := data[id];
      if u.isActive {
        return false;
      }
      if u.isPaused {
        return false;
      }
      data := data[id := StartedAt(u, name, now)];
      ok := true;
    }

    /** `stop_tracking`: only an active record stops; its session time is
        folded into the total and one closed session is appended. */
    method StopTracking(id: UserId, now: int) returns (ok: bool)
      modifies this
      ensures ok <==> (id in old(data) && old(data)[id].isActive)
      ensures ok ==> data == old(data)[id := StoppedAt(old(data)[id], now)]
      ensures !ok ==> data == old(data)
      ensures attendance == old(attendance) && preregistrations == old(preregistrations)
      ensures old(Valid()) ==> Valid()
    {
      if id !in data {
        return false;
      }
      var u := data[id];
      if !u.isActive {
        return false;
      }
      data := data[id := StoppedAt(u, now)];
      ok := true;
    }

    /** `pause_tracking`: only an active record pauses. */
    method PauseTracking(id: UserId, now: int) returns (ok: bool)
      modifies this
      ensures ok <==> (id in old(data) && old(data)[id].isActive)
      ensures ok ==> data == old(data)[id := PausedAt(old(data)[id], now)]
      ensures !ok ==> data == old(data)
      ensures attendance == old(attendance) && preregistrations == old(preregistrations)
      ensures old(Valid()) ==> Valid()
    {
      if id !in data {
        return false;
      }
      var u := data[id];
      if !u.isActive {
        return false;
      }
      data := data[id := PausedAt(u, now)];
      ok := true;
    }

    /** `resume_tracking`: only a paused record resumes. */
    method ResumeTracking(id: UserId, now: int) returns (ok: bool)
      modifies this
      ensures ok <==> (id in old(data) && old(data)[id].isPaused)
      ensures ok ==> data == old(data)[id := ResumedAt(old(data)[id], now)]
      ensures !ok ==> data == old(data)
      ensures attendance == old(attendance) && preregistrations == old(preregistrations)
      ensures old(Valid()) ==> Valid()
    {
      if id !in data {
        return false;
      }
      var u := data[id];
      if !u.isPaused {
        return false;
      }
      data := data[id := ResumedAt(u, now)];
      ok := true;
    }

    /** `get_total_time`: the live total of the record, 0 for an unknown
        member. */
    function GetTotalTime(id: UserId, now: int): (r: int)
      reads this
      ensures id !in data ==> r == 0
      ensures id in data && (!data[id].isActive || data[id].lastStart.None?) ==> r == data[id].totalTime
      ensures id in data && data[id].isActive && data[id].lastStart.Some? ==>
                r == data[id].totalTime + (now - data[id].lastStart.value)
    {
      if id in data then LiveTotal(data[id], now) else 0
    }

    /** `get_user_data`. */
    function GetUserData(id: UserId): (r: Option<TrackedUser>)
      reads this
      ensures r.Some? <==> id in data
      ensures r.Some? ==> r.value == data[id]
    {
      if id in data then Some(data[id]) else None
    }

    /** `get_pause_count`: 0 for an unknown member. */
    function GetPauseCount(id: UserId): (r: int)
      reads this
      ensures id !in data ==> r == 0
      ensures id in data ==> r == data[id].pauseCount
    {
      if id in data then data[id].pauseCount else 0
    }

    /** `get_paused_duration`: the seconds since the pause began, 0 unless
        the record is paused with a pause instant. */
    function GetPausedDuration(id: UserId, now: int): (r: int)
      reads this
      ensures !(id in data && data[id].isPaused && data[id].pauseStart.Some?) ==> r == 0
      ensures id in data && data[id].isPaused && data[id].pauseStart.Some? ==>
                r + data[id].pauseStart.value == now
    {
      if id in data && data[id].isPaused && data[id].pauseStart.Some? then
        now - data[id].pauseStart.value
      else 0
    }

    /** `reset_user_time`. */
    method ResetUserTime(id: UserId) returns (ok: bool)
      modifies this
      ensures ok <==> id in old(data)
      ensures ok ==> data == old(data)[id := Reset(old(data)[id])]
      ensures !ok ==> data == old(data)
      ensures attendance == old(attendance) && preregistrations == old(preregistrations)
      ensures old(Valid()) ==> Valid()
    {
      if id !in data {
        return false;
      }
      data := data[id := Reset(data[id])];
      ok := true;
    }

    /** `reset_all_user_times`: every record is reset, none removed, and
        the count is the number of records. */
    method ResetAllUserTimes() returns (count: nat)
      modifies this
      ensures count == |old(data)|
      ensures data.Keys == old(data).Keys
      ensures forall id :: id in data ==> data[id] == Reset(old(data)[id])
      ensures attendance == old(attendance) && preregistrations == old(preregistrations)
      ensures old(Valid()) ==> Valid()
    {
      // Every stored id is reset through the same `Reset` as `ResetUserTime`,
      // which cannot fail for an id taken from the store.
      var snapshot := data;
      var pending := snapshot.Keys;
      var result: map<UserId, TrackedUser> := map[];
      count := 0;
      while exists k :: k in pending
        invariant pending <= snapshot.Keys
        invariant result.Keys == snapshot.Keys - pending
        invariant forall id :: id in result ==> result[id] == Reset(snapshot[id])
        invariant count == |result.Keys|
        decreases pending
      {
        var id :| id in pending;
        assert id !in result.Keys;
        result := result[id := Reset(snapshot[id])];
        count := count + 1;
        pending := pending - {id};
      }
      assert result.Keys == snapshot.Keys;
      assert |snapshot| == |snapshot.Keys| && |result| == |result.Keys|;
      data := result;
    }

    /** `cancel_user_tracking`: the record is deleted. */
    method CancelUserTracking(id: UserId) returns (ok: bool)
      modifies this
      ensures ok <==> id in old(data)
      ensures data == old(data) - {id}
      ensures attendance == old(attendance) && preregistrations == old(preregistrations)
      ensures old(Valid()) ==> Valid()
    {
      if id !in data {
        assert data - {id} == data;
        return false;
      }
      data := data - {id};
      ok := true;
    }

    /** `clear_all_data`: every session record is dropped. */
    method ClearAllData() returns (ok: bool)
      modifies this
      ensures ok && data == map[]
      ensures attendance == old(attendance) && preregistrations == old(preregistrations)
      ensures old(Valid()) ==> Valid()
    {
      data := map[];
      ok := true;
    }

    /** `add_minutes`: only for a known member, whose name is refreshed. */
    method AddMinutes(id: UserId, name: string, minutes: int) returns (ok: bool)
      modifies this
      ensures ok <==> id in old(data)
      ensures ok ==> data == old(data)[id := MinutesAdded(old(data)[id], name, minutes)]
      ensures !ok ==> data == old(data)
      ensures attendance == old(attendance) && preregistrations == old(preregistrations)
      ensures old(Valid()) ==> Valid()
    {
      if id !in data {
        return false;
      }
      data := data[id := MinutesAdded(data[id], name, minutes)];
      ok := true;
    }

    /** `subtract_minutes`: only for a known member; the total floors at 0. */
    method SubtractMinutes(id: UserId, minutes: int) returns (ok: bool)
      modifies this
      ensures ok <==> id in old(data)
      ensures ok ==> data == old(data)[id := MinutesSubtracted(old(data)[id], minutes)]
      ensures !ok ==> data == old(data)
      ensures attendance == old(attendance) && preregistrations == old(preregistrations)
      ensures old(Valid()) ==> Valid()
    {
      if id !in data {
        return false;
      }
      data := data[id := MinutesSubtracted(data[id], minutes)];
      ok := true;
    }

    // ---------------------------------------------------------------
    // The attendance ledger
    // ---------------------------------------------------------------

    /** `add_manual_attendance`: quantities outside 1..15 are refused before
        anything is created; otherwise the record is enrolled and its bonus
        and total grow by the quantity, with no cap. */
    method AddManualAttendance(id: UserId, name: string, quantity: int) returns (ok: bool)
      modifies this
      ensures ok <==> 1 <= quantity <= 15
      ensures ok ==> attendance == old(attendance)[id := ManualBonusAdded(Enrolled(old(attendance), id, name), quantity)]
      ensures !ok ==> attendance == old(attendance)
      ensures data == old(data) && preregistrations == old(preregistrations)
      ensures old(Valid()) ==> Valid()
    {
      if quantity < 1 || quantity > 15 {
        return false;
      }
      var rec := Enrolled(attendance, id, name);
      rec := rec.(manualWeeklyAttendance := rec.manualWeeklyAttendance + quantity,
                  totalAttendance := rec.totalAttendance + quantity);
      attendance := attendance[id := rec];
      ok := true;
    }

    /** `add_daily_manual_attendance`: quantities outside 1..3 are refused
        before anything is created; otherwise the record is enrolled for
        today (kept even when the grant is then refused) and the grant is
        all or nothing against the daily cap. */
    method AddDailyManualAttendance(id: UserId, name: string, quantity: int, today: int) returns (ok: bool)
      modifies this
      ensures !(1 <= quantity <= 3) ==> !ok && attendance == old(attendance)
      ensures 1 <= quantity <= 3 ==>
        var (r, granted) := DailyManualGrant(EnrolledForDay(old(attendance), id, name, today), today, quantity);
        ok == granted && attendance == old(attendance)[id := r]
      ensures data == old(data) && preregistrations == old(preregistrations)
      ensures old(Valid()) ==> Valid()
    {
      if quantity < 1 || quantity > 3 {
        return false;
      }
      var rec := EnrolledForDay(attendance, id, name, today);
      attendance := attendance[id := rec];
      if rec.dailyAttendance[today] + quantity > DailyCap {
        return false;
      }
      attendance := attendance[id := Granted(rec, today, quantity)];
      ok := true;
      if old(Valid()) {
        DailyManualKeepsDailyCap(rec, today, quantity);
      }
    }

    /** `add_attendance`: the record is enrolled for today (kept even when
        the grant is refused), then the request is refused at either cap
        or truncated to fit both; the outcome is the ledger's `Grant`. */
    method AddAttendance(id: UserId, name: string, requested: int, today: int) returns (ok: bool)
      modifies this
      ensures var (r, granted) := Grant(EnrolledForDay(old(attendance), id, name, today), today, requested);
        ok == granted && attendance == old(attendance)[id := r]
      ensures data == old(data) && preregistrations == old(preregistrations)
      ensures old(Valid()) ==> Valid()
    {
      ghost var before := attendance;
      var rec := EnrolledForDay(attendance, id, name, today);
      if old(Valid()) {
        assert DailyCapped(rec);
      }
      attendance := attendance[id := rec];
      assert old(Valid()) ==> Valid();
      var daily := rec.dailyAttendance[today];
      RefusedGrantKeepsRecord(rec, today, requested);
      if daily >= DailyCap {
        return false;
      }
      var weekly := GetWeeklyAttendance(id, today);
      assert weekly == WeeklyFigure(rec, today);
      if weekly >= WeeklyCap {
        return false;
      }
      var toAdd := requested;
      if daily + toAdd > DailyCap {
        toAdd := DailyCap - daily;
      }
      if weekly + toAdd > WeeklyCap {
        toAdd := WeeklyCap - weekly;
      }
      if toAdd > 0 {
        assert toAdd == GrantAmount(daily, weekly, requested);
        attendance := attendance[id := Granted(rec, today, toAdd)];
        assert attendance == before[id := Grant(rec, today, requested).0];
        ok := true;
        if old(Valid()) {
          GrantKeepsDailyCapped(rec, today, requested);
        }
      } else {
        ok := false;
      }
    }

    /** `get_daily_attendance`: today's count, 0 when there is none. */
    function GetDailyAttendance(id: UserId, today: int): (r: int)
      reads this
      ensures id !in attendance ==> r == 0
      ensures id in attendance ==> r == Count(attendance[id].dailyAttendance, today)
      ensures Valid() ==> 0 <= r <= DailyCap
    {
      if id in attendance then Count(attendance[id].dailyAttendance, today) else 0
    }

    /** `get_weekly_attendance`: the loop over Monday to Friday of the
        current week, plus the manual bonus. */
    method GetWeeklyAttendance(id: UserId, today: int) returns (weekly: int)
      ensures id !in attendance ==> weekly == 0
      ensures id in attendance ==> weekly == WeeklyFigure(attendance[id], today)
      ensures Valid() && id in attendance ==>
        attendance[id].manualWeeklyAttendance <= weekly <= 5 * DailyCap + attendance[id].manualWeeklyAttendance
    {
      if id !in attendance {
        return 0;
      }
      var rec := attendance[id];
      var monday := WeekStart(today);
      weekly := 0;
      for i := 0 to 5
        invariant weekly == WindowSum(rec.dailyAttendance, monday, i)
      {
        weekly := weekly + Count(rec.dailyAttendance, monday + i);
      }
      weekly := weekly + rec.manualWeeklyAttendance;
      if Valid() {
        WindowSumBounded(rec, monday, 5);
      }
    }

    /** `get_total_attendance`: 0 for an unknown member. */
    function GetTotalAttendance(id: UserId): (r: int)
      reads this
      ensures id !in attendance ==> r == 0
      ensures id in attendance ==> r == attendance[id].totalAttendance
      ensures Valid() ==> r >= 0
    {
      if id in attendance then attendance[id].totalAttendance else 0
    }

    /** `reset_weekly_manual_attendances`: every bonus goes back to 0 and
        nothing else changes. */
    method ResetWeeklyManualAttendances()
      modifies this
      ensures attendance.Keys == old(attendance).Keys
      ensures forall id :: id in attendance ==>
        attendance[id] == old(attendance)[id].(manualWeeklyAttendance := 0)
      ensures data == old(data) && preregistrations == old(preregistrations)
      ensures old(Valid()) ==> Valid()
    {
      var pending := attendance.Keys;
      while exists k :: k in pending
        invariant pending <= old(attendance).Keys
        invariant attendance.Keys == old(attendance).Keys
        invariant forall id :: id in attendance && id !in pending ==>
          attendance[id] == old(attendance)[id].(manualWeeklyAttendance := 0)
        invariant forall id :: id in pending ==> attendance[id] == old(attendance)[id]
        invariant data == old(data) && preregistrations == old(preregistrations)
        invariant old(Valid()) ==> Valid()
        decreases pending
      {
        var id :| id in pending;
        attendance := attendance[id := attendance[id].(manualWeeklyAttendance := 0)];
        pending := pending - {id};
      }
    }

    /** `reset_all_attendances`: the ledger is emptied. */
    method ResetAllAttendances() returns (ok: bool)
      modifies this
      ensures ok && attendance == map[]
      ensures data == old(data) && preregistrations == old(preregistrations)
      ensures old(Valid()) ==> Valid()
    {
      attendance := map[];
      ok := true;
    }

    // ---------------------------------------------------------------
    // Initiators and links
    // ---------------------------------------------------------------

    /** `set_time_initiator`: recorded on a known member only. */
    method SetTimeInitiator(id: UserId, adminId: UserId, adminName: string, now: int)
      modifies this
      ensures id in old(data) ==>
        data == old(data)[id := old(data)[id].(initiator := Some(AdminRef(adminId, adminName, now)))]
      ensures id !in old(data) ==> data == old(data)
      ensures attendance == old(attendance) && preregistrations == old(preregistrations)
      ensures old(Valid()) ==> Valid()
    {
      if id in data {
        data := data[id := data[id].(initiator := Some(AdminRef(adminId, adminName, now)))];
      }
    }

    /** `get_time_initiator`. */
    function GetTimeInitiator(id: UserId): (r: Option<AdminRef>)
      reads this
      ensures id !in data ==> r == None
      ensures id in data ==> r == data[id].initiator
    {
      if id in data then data[id].initiator else None
    }

    /** `clear_time_initiator`. */
    method ClearTimeInitiator(id: UserId)
      modifies this
      ensures id in old(data) ==> data == old(data)[id := old(data)[id].(initiator := None)]
      ensures id !in old(data) ==> data == old(data)
      ensures attendance == old(attendance) && preregistrations == old(preregistrations)
      ensures old(Valid()) ==> Valid()
    {
      if id in data && data[id].initiator.Some? {
        data := data[id := data[id].(initiator := None)];
      }
    }

    /** `link_time_to_user`: only an active record can be linked; an
        existing link is overwritten. */
    method LinkTimeToUser(id: UserId, adminId: UserId, adminName: string, now: int) returns (ok: bool)
      modifies this
      ensures ok <==> (id in old(data) && old(data)[id].isActive)
      ensures ok ==> data == old(data)[id := old(data)[id].(linkedTo := Some(AdminRef(adminId, adminName, now)))]
      ensures !ok ==> data == old(data)
      ensures attendance == old(attendance) && preregistrations == old(preregistrations)
      ensures old(Valid()) ==> Valid()
    {
      if id !in data {
        return false;
      }
      if !data[id].isActive {
        return false;
      }
      data := data[id := data[id].(linkedTo := Some(AdminRef(adminId, adminName, now)))];
      ok := true;
    }

    /** `unlink_time`: succeeds exactly when a link was present. */
    method UnlinkTime(id: UserId) returns (ok: bool)
      modifies this
      ensures ok <==> (id in old(data) && old(data)[id].linkedTo.Some?)
      ensures ok ==> data == old(data)[id := old(data)[id].(linkedTo := None)]
      ensures !ok ==> data == old(data)
      ensures attendance == old(attendance) && preregistrations == old(preregistrations)
      ensures old(Valid()) ==> Valid()
    {
      if id !in data {
        return false;
      }
      if data[id].linkedTo.None? {
        return false;
      }
      data := data[id := data[id].(linkedTo := None)];
      ok := true;
    }

    /** `is_time_linked`. */
    function IsTimeLinked(id: UserId): (r: bool)
      reads this
      ensures r <==> id in data && data[id].linkedTo.Some?
    {
      id in data && data[id].linkedTo.Some?
    }

    /** `get_linked_user`. */
    function GetLinkedUser(id: UserId): (r: Option<AdminRef>)
      reads this
      ensures r.Some? <==> IsTimeLinked(id)
      ensures r.Some? ==> r == data[id].linkedTo
    {
      if id in data then data[id].linkedTo else None
    }

    // ---------------------------------------------------------------
    // The pre-registration queue
    // ---------------------------------------------------------------

    /** `preregister_user`: refused when the member is already queued or has
        an active or paused record. */
    method PreregisterUser(id: UserId, name: string, adminId: UserId, adminName: string, now: int) returns (ok: bool)
      modifies this
      ensures ok <==> (id !in old(preregistrations) && (id !in old(data) || CanStart(old(data)[id])))
      ensures ok ==> preregistrations == old(preregistrations)[id := PreregistrationEntry(name, adminId, adminName, now)]
      ensures !ok ==> preregistrations == old(preregistrations)
      ensures data == old(data) && attendance == old(attendance)
      ensures old(Valid()) ==> Valid()
    {
      if id in preregistrations {
        return false;
      }
      if id in data {
        var u := data[id];
        if u.isActive || u.isPaused {
          return false;
        }
      }
      preregistrations := preregistrations[id := PreregistrationEntry(name, adminId, adminName, now)];
      ok := true;
    }

    /** `activate_preregistration`: the queued entry starts a session under
        its recorded name; exactly when the start succeeds, the registering
        admin becomes the initiator and the entry leaves the queue. */
    method ActivatePreregistration(id: UserId, now: int) returns (ok: bool)
      modifies this
      ensures ok <==> (id in old(preregistrations) && (id !in old(data) || CanStart(old(data)[id])))
      ensures ok ==>
        var e := old(preregistrations)[id];
        && data == old(data)[id := StartedAt(RecordFor(old(data), id, e.name), e.name, now)
                                     .(initiator := Some(AdminRef(e.registeredById, e.registeredByName, now)))]
        && preregistrations == old(preregistrations) - {id}
      ensures !ok ==> data == old(data) && preregistrations == old(preregistrations)
      ensures attendance == old(attendance)
      ensures old(Valid()) ==> Valid()
    {
      if id !in preregistrations {
        return false;
      }
      var e := preregistrations[id];
      var started := StartTracking(id, e.name, now);
      if started {
        SetTimeInitiator(id, e.registeredById, e.registeredByName, now);
        preregistrations := preregistrations - {id};
        return true;
      }
      ok := false;
    }

    /** `clean_expired_preregistrations`: the queue is emptied and its size
        returned. */
    method CleanExpiredPreregistrations() returns (count: nat)
      modifies this
      ensures count == |old(preregistrations)| && preregistrations == map[]
      ensures data == old(data) && attendance == old(attendance)
      ensures old(Valid()) ==> Valid()
    {
      count := |preregistrations|;
      preregistrations := map[];
    }

    /** `remove_preregistration`. */
    method RemovePreregistration(id: UserId) returns (ok: bool)
      modifies this
      ensures ok <==> id in old(preregistrations)
      ensures preregistrations == old(preregistrations) - {id}
      ensures data == old(data) && attendance == old(attendance)
      ensures old(Valid()) ==> Valid()
    {
      if id !in preregistrations {
        assert preregistrations - {id} == preregistrations;
        return false;
      }
      preregistrations := preregistrations - {id};
      ok := true;
    }
  }
}
