/** The bot's rules on top of the tracker: who receives the attendance of
    a milestone, the live milestone check and the periodic milestone step,
    the `iniciar_tiempo` command with its time limits and its choice
    between starting and pre-registering, and the `pausar_tiempo` command
    with its automatic cancellation at the third pause.

    The server is a map from member id to `Member`; a member missing from
    it is not on the server. Messages, embeds and notification retries
    are not modelled.
 */
module Bot {
  import opened Records
  import opened Session
  import opened Ledger
  import opened Tiers
  import opened Milestones
  import opened Tracker

  /** `AUTO_START_HOUR` and `AUTO_START_MINUTE`, Colombian local time. */
  const AutoStartHour: int := 20
  const AutoStartMinute: int := 16

  /** The two time limits of `iniciar_tiempo`, in seconds. */
  const StandardLimit: int := 7200
  const UnlimitedLimit: int := 14400

  /** The pause count at which `pausar_tiempo` cancels the session. */
  const PauseLimit: int := 3

  // ---------------------------------------------------------------
  // Who receives a milestone's attendance
  // ---------------------------------------------------------------

  /** The admin a member's milestone credits: the link when there is one,
      otherwise the initiator, otherwise nobody. */
  function Recipient(u: TrackedUser): (r: Option<AdminRef>)
    ensures r.Some? <==> (u.linkedTo.Some? || u.initiator.Some?)
    ensures u.linkedTo.Some? ==> r == u.linkedTo
    ensures u.linkedTo.None? ==> r == u.initiator
  {
    if u.linkedTo.Some? then u.linkedTo else u.initiator
  }

  /** The member is on the server and resolves to a tier from Altos up. */
  predicate CanEarnAttendance(guild: map<UserId, Member>, id: UserId) {
    id in guild && HasAttendanceRole(GetUserRoleType(guild[id].roleNames))
  }

  /** The recipient of the milestone attendance of a stored member. */
  function MilestoneRecipient(data: map<UserId, TrackedUser>, memberId: UserId): Option<AdminRef> {
    if memberId in data then Recipient(data[memberId]) else None
  }

  /** What `add_attendance_for_milestone` does to the ledger, and whether it
      granted. Only a recipient on the server with an attendance tier is
      considered; its record is enrolled for today and receives one
      attendance through the capped grant, which succeeds exactly while
      both of its caps have room. No other record changes. */
  function MilestoneGrant(data: map<UserId, TrackedUser>, ledger: map<UserId, AttendanceRecord>,
                          memberId: UserId, guild: map<UserId, Member>, today: int)
    : (res: (map<UserId, AttendanceRecord>, bool))
    ensures var r := MilestoneRecipient(data, memberId);
      !(r.Some? && CanEarnAttendance(guild, r.value.adminId)) ==> res == (ledger, false)
    ensures var r := MilestoneRecipient(data, memberId);
      r.Some? && CanEarnAttendance(guild, r.value.adminId) ==>
        var a := r.value.adminId;
        var e := Enrolled(ledger, a, guild[a].displayName);
        && res.0.Keys == ledger.Keys + {a}
        && (forall k :: k in ledger && k != a ==> res.0[k] == ledger[k])
        && (res.1 <==> Count(e.dailyAttendance, today) < DailyCap && WeeklyFigure(e, today) < WeeklyCap)
        && res.0[a].totalAttendance == e.totalAttendance + (if res.1 then 1 else 0)
        && Count(res.0[a].dailyAttendance, today) == Count(e.dailyAttendance, today) + (if res.1 then 1 else 0)
  {
    var r := MilestoneRecipient(data, memberId);
    if r.Some? && CanEarnAttendance(guild, r.value.adminId) then
      var a := r.value.adminId;
      var rec := EnrolledForDay(ledger, a, guild[a].displayName, today);
      var e := Enrolled(ledger, a, guild[a].displayName);
      AddAttendanceKeepsCaps(rec, today, 1);
      WindowSumOfCounts(rec.dailyAttendance, e.dailyAttendance, WeekStart(today), 5);
      var (rec', ok) := Grant(rec, today, 1);
      (ledger[a := rec'], ok)
    else
      (ledger, false)
  }

  /** `add_attendance_for_milestone`: the ledger becomes `MilestoneGrant`
      of the stores as they were, and the session store is untouched. */
  method AddAttendanceForMilestone(t: TimeTracker, memberId: UserId, guild: map<UserId, Member>, today: int)
    returns (granted: bool)
    modifies t
    ensures t.data == old(t.data) && t.preregistrations == old(t.preregistrations)
    ensures (t.attendance, granted) == MilestoneGrant(old(t.data), old(t.attendance), memberId, guild, today)
    ensures old(t.Valid()) ==> t.Valid()
  {
    var linked := t.GetLinkedUser(memberId);
    var admin: AdminRef;
    if linked.Some? {
      admin := linked.value;
    } else {
      var initiator := t.GetTimeInitiator(memberId);
      if initiator.None? {
        return false;
      }
      admin := initiator.value;
    }
    if admin.adminId !in guild {
      return false;
    }
    var adminMember := guild[admin.adminId];
    if !HasAttendanceRole(GetUserRoleType(adminMember.roleNames)) {
      return false;
    }
    granted := t.AddAttendance(admin.adminId, adminMember.displayName, 1, today);
  }

  /** The ledger after a milestone: both milestone checks ask for the grant
      only while the member is still on the server. */
  function MilestoneLedger(data: map<UserId, TrackedUser>, ledger: map<UserId, AttendanceRecord>,
                           memberId: UserId, guild: map<UserId, Member>, today: int): map<UserId, AttendanceRecord>
  {
    if memberId in guild then MilestoneGrant(data, ledger, memberId, guild, today).0 else ledger
  }

  /** The grant step shared by both milestone checks. */
  method GrantIfOnServer(t: TimeTracker, memberId: UserId, guild: map<UserId, Member>, today: int)
    modifies t
    ensures t.data == old(t.data) && t.preregistrations == old(t.preregistrations)
    ensures t.attendance == MilestoneLedger(old(t.data), old(t.attendance), memberId, guild, today)
    ensures old(t.Valid()) ==> t.Valid()
  {
    if memberId in guild {
      var granted := AddAttendanceForMilestone(t, memberId, guild, today);
    }
  }

  // ---------------------------------------------------------------
  // The live milestone check
  // ---------------------------------------------------------------

  datatype MilestoneOutcome = NoMilestone | Reported(hours: int)

  /** The length of the current session as the live check measures it: up
      to the pause instant for a paused record, up to `now` otherwise. */
  function SessionSpan(u: TrackedUser, now: int): int
    requires u.lastStart.Some?
  {
    if u.isPaused && u.pauseStart.Some? then u.pauseStart.value - u.lastStart.value
    else now - u.lastStart.value
  }

  /** The live check looks at a record only while it is active and its
      current session has lasted an hour. */
  predicate HourSessionDue(u: TrackedUser, now: int) {
    u.isActive && u.lastStart.Some? && SessionSpan(u, now) >= HourSeconds
  }

  /** Some hour boundary of `total` is not yet reported. */
  ghost predicate AnyMissing(total: int, notified: seq<int>) {
    exists h :: IsMissing(h, total, notified)
  }

  /** The second branch of the live check (the current hour boundary is not
      reported although no hour is missing) can only be taken by a
      well-formed record whose stored total is negative: with a
      non-negative stored total and an hour-long session the current hour
      is at least 1, and then it is missing or reported. */
  lemma CurrentHourBranchNeedsNegativeTotal(u: TrackedUser, now: int)
    requires WellFormed(u) && HourSessionDue(u, now)
    requires !AnyMissing(LiveTotal(u, now), u.notifiedMilestones)
    requires CompletedHours(LiveTotal(u, now)) * HourSeconds !in u.notifiedMilestones
    ensures u.totalTime < 0
  {
    if u.totalTime >= 0 {
      assert LiveTotal(u, now) >= HourSeconds;
      CurrentHourReportedWhenNothingMissing(LiveTotal(u, now), u.notifiedMilestones);
      assert false;
    }
  }

  /** A record after a reported milestone: its reported boundaries become
      `marked`, its session is closed when `stop` holds and it is running,
      its milestone is flagged when `complete` holds, and the checked total
      is remembered when `check` holds one. */
  function Settled(u: TrackedUser, marked: seq<int>, now: int, stop: bool, complete: bool, check: Option<int>)
    : (r: TrackedUser)
    ensures r.notifiedMilestones == marked
    ensures LiveTotal(r, now) == LiveTotal(u, now)
    ensures stop && u.isActive ==> StatusOf(r) == Inactive && r.totalTime == LiveTotal(u, now)
    ensures stop ==> StatusOf(r) != Active
    ensures stop && u.isActive ==>
      r.sessions == u.sessions + [SessionRecord(u.lastStart, now, SessionTime(u, now))]
    ensures !(stop && u.isActive) ==> r.sessions == u.sessions && r.isActive == u.isActive && r.isPaused == u.isPaused
    ensures r.milestoneCompleted == (complete || u.milestoneCompleted)
    ensures r.lastMilestoneCheck == (if check.Some? then check else u.lastMilestoneCheck)
    ensures WellFormed(u) ==> WellFormed(r)
  {
    var m := u.(notifiedMilestones := marked);
    var c := if complete then m.(milestoneCompleted := true) else m;
    var r := if check.Some? then c.(lastMilestoneCheck := check) else c;
    if stop && r.isActive then StoppedAt(r, now) else r
  }

  /** The bookkeeping both milestone checks do once they report: store the
      reported boundaries, flag the milestone, remember the checked total
      and stop the session. `stop_tracking` touches none of the fields the
      flags set, so setting them before the stop, as here, gives the record
      the checks write after it. */
  method SettleMilestone(t: TimeTracker, id: UserId, marked: seq<int>, now: int, stop: bool, complete: bool,
                         check: Option<int>)
    requires id in t.data
    modifies t
    ensures t.data == old(t.data)[id := Settled(old(t.data)[id], marked, now, stop, complete, check)]
    ensures t.data.Keys == old(t.data).Keys
    ensures forall k :: k in t.data && k != id ==> t.data[k] == old(t.data)[k]
    ensures t.attendance == old(t.attendance) && t.preregistrations == old(t.preregistrations)
    ensures old(t.Valid()) ==> t.Valid()
  {
    var m := t.data[id].(notifiedMilestones := marked);
    if complete {
      m := m.(milestoneCompleted := true);
    }
    if check.Some? {
      m := m.(lastMilestoneCheck := check);
    }
    t.data := t.data[id := m];
    if stop {
      var stopped := t.StopTracking(id, now);
    }
  }

  /** `check_time_milestone`: for an active record whose session has lasted
      an hour, report the highest hour boundary not yet reported (or the
      current one), grant the attendance if the member is on the server,
      mark every missing boundary as reported and stop the session. No
      other record changes, and a rescan at the same instant finds no
      missing boundary. */
  method CheckTimeMilestone(t: TimeTracker, id: UserId, now: int, guild: map<UserId, Member>, today: int)
    returns (outcome: MilestoneOutcome)
    modifies t
    ensures !(id in old(t.data) && HourSessionDue(old(t.data)[id], now)) ==>
      outcome == NoMilestone && t.data == old(t.data) && t.attendance == old(t.attendance)
    ensures id in old(t.data) && HourSessionDue(old(t.data)[id], now) ==>
      DueOutcome(old(t.data), old(t.attendance), t.data, t.attendance, id, now, guild, today, outcome)
    ensures t.data.Keys == old(t.data).Keys
    ensures forall k :: k in t.data && k != id ==> t.data[k] == old(t.data)[k]
    ensures t.preregistrations == old(t.preregistrations)
    ensures old(t.Valid()) ==> t.Valid()
  {
    if id !in t.data {
      return NoMilestone;
    }
    var u := t.data[id];
    if !u.isActive {
      return NoMilestone;
    }
    if u.lastStart.None? {
      return NoMilestone;
    }
    var sessionTime := SessionSpan(u, now);
    if sessionTime < HourSeconds {
      return NoMilestone;
    }
    outcome := ReportDueMilestone(t, id, now, guild, today);
  }

  /** What the live check does to a record whose hour-long session is due,
      as a relation between the stores before and after: it reports when
      some boundary is missing or the current one is unreported; the
      highest missing hour when there is one, with exactly the missing
      boundaries added to the reported list; otherwise the current hour,
      appended on its own and, for a member with the unlimited role,
      flagged as completed. A report leaves the record stopped with its
      live total, nothing missing on a rescan, and the ledger after the
      milestone grant; the whole new record is the old one `Settled` with
      the new list (its closed session appended, every other field kept,
      and in the first branch no flag and no checked total set). No report
      changes nothing. */
  ghost predicate DueOutcome(data: map<UserId, TrackedUser>, ledger: map<UserId, AttendanceRecord>,
                             data': map<UserId, TrackedUser>, ledger': map<UserId, AttendanceRecord>,
                             id: UserId, now: int, guild: map<UserId, Member>, today: int,
                             outcome: MilestoneOutcome)
    requires id in data
  {
    var u := data[id];
    var total := LiveTotal(u, now);
    && (outcome.Reported? <==>
          (AnyMissing(total, u.notifiedMilestones)
           || CompletedHours(total) * HourSeconds !in u.notifiedMilestones))
    && (outcome.Reported? && AnyMissing(total, u.notifiedMilestones) ==>
          IsMissing(outcome.hours, total, u.notifiedMilestones)
          && (forall h :: IsMissing(h, total, u.notifiedMilestones) ==> h <= outcome.hours)
          && id in data'
          && MarkedExactly(u.notifiedMilestones, data'[id].notifiedMilestones, total)
          && data'[id] == Settled(u, data'[id].notifiedMilestones, now, true, false, None))
    && (outcome.Reported? && !AnyMissing(total, u.notifiedMilestones) ==>
          outcome.hours == CompletedHours(total)
          && id in data'
          && data'[id].notifiedMilestones == u.notifiedMilestones + [CompletedHours(total) * HourSeconds]
          && (id in guild && guild[id].hasUnlimitedRole ==> data'[id].milestoneCompleted)
          && data'[id] == Settled(u, data'[id].notifiedMilestones, now, true,
                                  id in guild && guild[id].hasUnlimitedRole, None))
    && (outcome.Reported? ==>
          id in data' && StatusOf(data'[id]) == Inactive
          && data'[id].totalTime == total
          && !AnyMissing(total, data'[id].notifiedMilestones)
          && ledger' == MilestoneLedger(data, ledger, id, guild, today))
    && (outcome.NoMilestone? ==> data' == data && ledger' == ledger)
  }

  /** The reporting half of `check_time_milestone`, for a record already
      known to be due. */
  method ReportDueMilestone(t: TimeTracker, id: UserId, now: int, guild: map<UserId, Member>, today: int)
    returns (outcome: MilestoneOutcome)
    requires id in t.data && HourSessionDue(t.data[id], now)
    modifies t
    ensures DueOutcome(old(t.data), old(t.attendance), t.data, t.attendance, id, now, guild, today, outcome)
    ensures t.data.Keys == old(t.data).Keys
    ensures forall k :: k in t.data && k != id ==> t.data[k] == old(t.data)[k]
    ensures t.preregistrations == old(t.preregistrations)
    ensures old(t.Valid()) ==> t.Valid()
  {
    var u := t.data[id];
    var total := t.GetTotalTime(id, now);
    var notified := u.notifiedMilestones;
    var totalHours := CompletedHours(total);
    var hourMilestone := totalHours * HourSeconds;
    var missing := CollectMissing(totalHours, notified);
    if missing != [] {
      outcome := ReportMissingHours(t, id, now, guild, today, missing);
    } else if hourMilestone !in notified {
      assert !AnyMissing(total, notified);
      outcome := ReportCurrentHour(t, id, now, guild, today);
    } else {
      assert !AnyMissing(total, notified);
      outcome := NoMilestone;
    }
  }

  /** The first branch of the live check: some hour boundaries of the live
      total are missing; the highest one is reported and all are marked. */
  method ReportMissingHours(t: TimeTracker, id: UserId, now: int, guild: map<UserId, Member>, today: int,
                            missing: seq<int>)
    returns (outcome: MilestoneOutcome)
    requires id in t.data && HourSessionDue(t.data[id], now)
    requires missing != []
    requires forall i, j :: 0 <= i < j < |missing| ==> missing[i] < missing[j]
    requires forall h :: h in missing <==> IsMissing(h, LiveTotal(t.data[id], now), t.data[id].notifiedMilestones)
    modifies t
    ensures DueOutcome(old(t.data), old(t.attendance), t.data, t.attendance, id, now, guild, today, outcome)
    ensures t.data.Keys == old(t.data).Keys
    ensures forall k :: k in t.data && k != id ==> t.data[k] == old(t.data)[k]
    ensures t.preregistrations == old(t.preregistrations)
    ensures old(t.Valid()) ==> t.Valid()
  {
    var u := t.data[id];
    var notified := u.notifiedMilestones;
    var hoursToNotify := missing[|missing| - 1];
    var marked := MarkNotified(notified, missing);
    MissingHoursOutcome(t.data, t.attendance, id, now, guild, today, missing, marked);
    GrantIfOnServer(t, id, guild, today);
    SettleMilestone(t, id, marked, now, true, false, None);
    outcome := Reported(hoursToNotify);
  }

  /** The stores `ReportMissingHours` leaves behind meet `DueOutcome`. */
  lemma MissingHoursOutcome(data: map<UserId, TrackedUser>, ledger: map<UserId, AttendanceRecord>,
                            id: UserId, now: int,
                            guild: map<UserId, Member>, today: int, missing: seq<int>, marked: seq<int>)
    requires id in data && HourSessionDue(data[id], now)
    requires missing != []
    requires forall i, j :: 0 <= i < j < |missing| ==> missing[i] < missing[j]
    requires forall h :: h in missing <==> IsMissing(h, LiveTotal(data[id], now), data[id].notifiedMilestones)
    requires AppendsBoundaries(data[id].notifiedMilestones, missing, marked)
    ensures DueOutcome(data, ledger, data[id := Settled(data[id], marked, now, true, false, None)],
                       MilestoneLedger(data, ledger, id, guild, today),
                       id, now, guild, today, Reported(missing[|missing| - 1]))
  {
    var u := data[id];
    SettledReport(u, now, missing, marked, false, None);
    var r := Settled(u, marked, now, true, false, None);
    assert data[id := r][id] == r;
  }

  /** The second branch of the live check: nothing is missing but the
      current hour boundary is unreported; it is reported and appended. */
  method ReportCurrentHour(t: TimeTracker, id: UserId, now: int, guild: map<UserId, Member>, today: int)
    returns (outcome: MilestoneOutcome)
    requires id in t.data && HourSessionDue(t.data[id], now)
    requires !AnyMissing(LiveTotal(t.data[id], now), t.data[id].notifiedMilestones)
    requires CompletedHours(LiveTotal(t.data[id], now)) * HourSeconds !in t.data[id].notifiedMilestones
    modifies t
    ensures DueOutcome(old(t.data), old(t.attendance), t.data, t.attendance, id, now, guild, today, outcome)
    ensures t.data.Keys == old(t.data).Keys
    ensures forall k :: k in t.data && k != id ==> t.data[k] == old(t.data)[k]
    ensures t.preregistrations == old(t.preregistrations)
    ensures old(t.Valid()) ==> t.Valid()
  {
    var hasUnlimited := id in guild && guild[id].hasUnlimitedRole;
    var u := t.data[id];
    var total := LiveTotal(u, now);
    var notified := u.notifiedMilestones;
    var totalHours := CompletedHours(total);
    GrantIfOnServer(t, id, guild, today);
    var marked := notified + [totalHours * HourSeconds];
    RescanFindsNothing(total, notified, [], marked);
    SettleMilestone(t, id, marked, now, true, hasUnlimited, None);
    outcome := Reported(totalHours);
  }

  // ---------------------------------------------------------------
  // The periodic milestone step
  // ---------------------------------------------------------------

  /** `process_single_user_milestone`, for one stored record whatever its
      state: when some hour boundary of the live total is not reported,
      grant the attendance if the member is on the server, report the
      highest such hour, mark all of them, stop the session if it is
      active, flag the milestone as completed for a member with the
      unlimited role and remember the total that was checked. Afterwards
      the same scan finds nothing missing; when nothing was missing,
      nothing changes. */
  method ProcessSingleUserMilestone(t: TimeTracker, id: UserId, now: int, guild: map<UserId, Member>, today: int)
    returns (reported: Option<int>)
    requires id in t.data
    modifies t
    ensures ProcessOutcome(old(t.data), old(t.attendance), t.data, t.attendance, id, now, guild, today, reported)
    ensures t.data.Keys == old(t.data).Keys
    ensures forall k :: k in t.data && k != id ==> t.data[k] == old(t.data)[k]
    ensures t.preregistrations == old(t.preregistrations)
    ensures old(t.Valid()) ==> t.Valid()
  {
    var u0 := t.data[id];
    var total := t.GetTotalTime(id, now);
    var hasUnlimited := id in guild && guild[id].hasUnlimitedRole;
    var notified := u0.notifiedMilestones;
    var totalHours := CompletedHours(total);
    var missing := CollectMissing(totalHours, notified);
    if missing == [] {
      assert !AnyMissing(total, notified);
      return None;
    }
    var hoursToNotify := missing[|missing| - 1];
    var marked := MarkNotified(notified, missing);
    var stop := hoursToNotify >= 1;
    ProcessedRecord(t.data, t.attendance, id, now, guild, today, missing, marked);
    GrantIfOnServer(t, id, guild, today);
    SettleMilestone(t, id, marked, now, stop, stop && hasUnlimited, Some(total));
    reported := Some(hoursToNotify);
  }

  /** What the periodic step does to one record, as a relation between the
      stores before and after: it reports exactly when some hour boundary
      of the live total is missing, and then the highest such hour; the
      record ends with exactly the missing boundaries added, its session
      closed with the live total kept, nothing missing on a rescan, the
      checked total remembered and, for a member with the unlimited role,
      the milestone flagged; the ledger is the one after the milestone
      grant, and the whole new record is the old one `Settled` with the new
      list. Without a report nothing changes. */
  ghost predicate ProcessOutcome(data: map<UserId, TrackedUser>, ledger: map<UserId, AttendanceRecord>,
                                 data': map<UserId, TrackedUser>, ledger': map<UserId, AttendanceRecord>,
                                 id: UserId, now: int, guild: map<UserId, Member>, today: int,
                                 reported: Option<int>)
    requires id in data
  {
    var u := data[id];
    var total := LiveTotal(u, now);
    && (reported.Some? <==> AnyMissing(total, u.notifiedMilestones))
    && (reported.None? ==> data' == data && ledger' == ledger)
    && (reported.Some? ==>
          IsMissing(reported.value, total, u.notifiedMilestones)
          && (forall h :: IsMissing(h, total, u.notifiedMilestones) ==> h <= reported.value)
          && id in data' && StatusOf(data'[id]) != Active
          && LiveTotal(data'[id], now) == total
          && MarkedExactly(u.notifiedMilestones, data'[id].notifiedMilestones, total)
          && !AnyMissing(LiveTotal(data'[id], now), data'[id].notifiedMilestones)
          && ledger' == MilestoneLedger(data, ledger, id, guild, today)
          && data'[id].lastMilestoneCheck == Some(total)
          && (id in guild && guild[id].hasUnlimitedRole ==> data'[id].milestoneCompleted)
          && data'[id] == Settled(u, data'[id].notifiedMilestones, now, true,
                                  id in guild && guild[id].hasUnlimitedRole, Some(total)))
  }

  /** The stores `ProcessSingleUserMilestone` leaves behind when it reports
      meet `ProcessOutcome`, and the record it writes stays well formed. */
  lemma ProcessedRecord(data: map<UserId, TrackedUser>, ledger: map<UserId, AttendanceRecord>,
                        id: UserId, now: int, guild: map<UserId, Member>, today: int,
                        missing: seq<int>, marked: seq<int>)
    requires id in data
    requires missing != []
    requires forall i, j :: 0 <= i < j < |missing| ==> missing[i] < missing[j]
    requires forall h :: h in missing <==> IsMissing(h, LiveTotal(data[id], now), data[id].notifiedMilestones)
    requires AppendsBoundaries(data[id].notifiedMilestones, missing, marked)
    ensures var u := data[id];
      var last := missing[|missing| - 1];
      var stop := last >= 1;
      var r := Settled(u, marked, now, stop, stop && (id in guild && guild[id].hasUnlimitedRole), Some(LiveTotal(u, now)));
      && ProcessOutcome(data, ledger, data[id := r], MilestoneLedger(data, ledger, id, guild, today),
                        id, now, guild, today, Some(last))
      && (WellFormed(u) ==> WellFormed(r))
  {
    var u := data[id];
    var last := missing[|missing| - 1];
    var complete := last >= 1 && (id in guild && guild[id].hasUnlimitedRole);
    SettledReport(u, now, missing, marked, complete, Some(LiveTotal(u, now)));
    var r := Settled(u, marked, now, last >= 1, complete, Some(LiveTotal(u, now)));
    assert data[id := r][id] == r;
  }

  /** The record either milestone check writes when hours are missing: the
      highest missing hour is the one reported, exactly the missing
      boundaries are added, the session is closed with the live total
      kept, and a rescan finds nothing. */
  lemma SettledReport(u: TrackedUser, now: int, missing: seq<int>, marked: seq<int>, complete: bool,
                      check: Option<int>)
    requires missing != []
    requires forall i, j :: 0 <= i < j < |missing| ==> missing[i] < missing[j]
    requires forall h :: h in missing <==> IsMissing(h, LiveTotal(u, now), u.notifiedMilestones)
    requires AppendsBoundaries(u.notifiedMilestones, missing, marked)
    ensures var total := LiveTotal(u, now);
      var last := missing[|missing| - 1];
      var r := Settled(u, marked, now, true, complete, check);
      && last >= 1
      && IsMissing(last, total, u.notifiedMilestones)
      && (forall h :: IsMissing(h, total, u.notifiedMilestones) ==> h <= last)
      && StatusOf(r) != Active && LiveTotal(r, now) == total
      && (u.isActive ==> StatusOf(r) == Inactive && r.totalTime == total)
      && MarkedExactly(u.notifiedMilestones, r.notifiedMilestones, total)
      && !AnyMissing(LiveTotal(r, now), r.notifiedMilestones)
      && (complete ==> r.milestoneCompleted)
      && (WellFormed(u) ==> WellFormed(r))
  {
    var total := LiveTotal(u, now);
    var notified := u.notifiedMilestones;
    LastIsHighest(total, notified, missing);
    forall x | x in notified ensures x in marked {
      var i :| 0 <= i < |notified| && notified[i] == x;
      assert marked[i] == x;
    }
    RescanFindsNothing(total, notified, missing, marked);
    MarkedIsExact(total, notified, missing, marked);
  }

  // ---------------------------------------------------------------
  // iniciar_tiempo
  // ---------------------------------------------------------------

  /** The clock test of `iniciar_tiempo`: at or after 20:16. */
  function IsAfterAutoStart(hour: int, minute: int): (r: bool)
    ensures 0 <= minute < 60 ==>
      (r <==> hour * 60 + minute >= AutoStartHour * 60 + AutoStartMinute)
  {
    hour > AutoStartHour || (hour == AutoStartHour && minute >= AutoStartMinute)
  }

  /** The limit check of `iniciar_tiempo`, branch by branch as the command
      takes them: Gold and Medios stop at two hours whatever their roles,
      other members stop at two hours unless they hold the unlimited role,
      which raises the limit to four hours. */
  function TimeLimitReached(tier: Tier, hasUnlimited: bool, total: int): (r: bool)
    ensures r <==> total >= (if hasUnlimited && tier != Gold && tier != Medios then UnlimitedLimit else StandardLimit)
  {
    if tier == Gold || tier == Medios then total >= 7200
    else if !hasUnlimited then total >= 7200
    else total >= 14400
  }

  /** Once the limit is reached, more time keeps it reached; and the
      unlimited role never lowers the limit. */
  lemma LimitReachedIsMonotone(tier: Tier, hasUnlimited: bool, t1: int, t2: int)
    requires t1 <= t2
    ensures TimeLimitReached(tier, hasUnlimited, t1) ==> TimeLimitReached(tier, hasUnlimited, t2)
    ensures TimeLimitReached(tier, true, t1) ==> TimeLimitReached(tier, false, t1)
  {
  }

  datatype StartOutcome =
    | BotRefused
    | LimitReached(total: int)
    | HasPausedTime
    | Started(autoLinked: bool)
    | AlreadyActive
    | Preregistered
    | PreregistrationRefused

  /** The starting half of `iniciar_tiempo`: start the session, record
      the executor as its initiator and, when the executor can earn
      attendance, link the session to the executor. */
  method StartAttributed(t: TimeTracker, targetId: UserId, name: string, executorId: UserId,
                         executorName: string, guild: map<UserId, Member>, now: int)
    returns (ok: bool, linked: bool)
    modifies t
    ensures ok <==> (targetId !in old(t.data) || CanStart(old(t.data)[targetId]))
    ensures ok ==>
      var who := Some(AdminRef(executorId, executorName, now));
      var base := StartedAt(RecordFor(old(t.data), targetId, name), name, now).(initiator := who);
      && (linked <==> CanEarnAttendance(guild, executorId))
      && t.data == old(t.data)[targetId := if linked then base.(linkedTo := who) else base]
    ensures !ok ==> t.data == old(t.data)
    ensures t.attendance == old(t.attendance) && t.preregistrations == old(t.preregistrations)
    ensures old(t.Valid()) ==> t.Valid()
  {
    ghost var d0 := t.data;
    linked := false;
    ok := t.StartTracking(targetId, name, now);
    if ok {
      ghost var who := Some(AdminRef(executorId, executorName, now));
      ghost var base := StartedAt(RecordFor(d0, targetId, name), name, now).(initiator := who);
      t.SetTimeInitiator(targetId, executorId, executorName, now);
      assert t.data == d0[targetId := base];
      if CanEarnAttendance(guild, executorId) {
        linked := t.LinkTimeToUser(targetId, executorId, executorName, now);
        assert linked;
      }
    }
  }

  /** `iniciar_tiempo`, run by the admin `executorId` on the member
      `target` at local time `hour:minute`: refuse bots, refuse members
      whose live total reached their limit, refuse paused members; at or
      after the start time start the session, record the executor as
      initiator and link the session to the executor when the executor
      holds an attendance tier; before it, queue a pre-registration. */
  method StartCommand(t: TimeTracker, target: Member, targetId: UserId, executorId: UserId,
                      executorName: string, guild: map<UserId, Member>, hour: int, minute: int, now: int)
    returns (outcome: StartOutcome)
    modifies t
    ensures outcome == BotRefused <==> target.isBot
    ensures var total := if targetId in old(t.data) then LiveTotal(old(t.data)[targetId], now) else 0;
      !target.isBot ==>
        (outcome.LimitReached? <==> TimeLimitReached(GetUserRoleType(target.roleNames), target.hasUnlimitedRole, total))
    ensures outcome == HasPausedTime ==> targetId in old(t.data) && old(t.data)[targetId].isPaused
    ensures var total := if targetId in old(t.data) then LiveTotal(old(t.data)[targetId], now) else 0;
      var paused := targetId in old(t.data) && old(t.data)[targetId].isPaused;
      var startable := targetId !in old(t.data) || CanStart(old(t.data)[targetId]);
      !target.isBot && !TimeLimitReached(GetUserRoleType(target.roleNames), target.hasUnlimitedRole, total) ==>
        && (outcome == HasPausedTime <==> paused)
        && (!paused && IsAfterAutoStart(hour, minute) ==>
              (outcome.Started? <==> startable) && (outcome.Started? || outcome == AlreadyActive))
        && (!paused && !IsAfterAutoStart(hour, minute) ==>
              (outcome == Preregistered <==> targetId !in old(t.preregistrations) && startable)
              && (outcome == Preregistered || outcome == PreregistrationRefused))
    ensures outcome.Started? || outcome == AlreadyActive ==> IsAfterAutoStart(hour, minute)
    ensures outcome == Preregistered || outcome == PreregistrationRefused ==> !IsAfterAutoStart(hour, minute)
    ensures outcome.Started? ==>
      var who := Some(AdminRef(executorId, executorName, now));
      var base := StartedAt(RecordFor(old(t.data), targetId, target.displayName), target.displayName, now)
                    .(initiator := who);
      && (outcome.autoLinked <==> CanEarnAttendance(guild, executorId))
      && t.data == old(t.data)[targetId := if outcome.autoLinked then base.(linkedTo := who) else base]
      && t.preregistrations == old(t.preregistrations)
    ensures outcome == Preregistered ==>
      t.data == old(t.data)
      && t.preregistrations == old(t.preregistrations)[targetId :=
           PreregistrationEntry(target.displayName, executorId, executorName, now)]
    ensures !outcome.Started? && outcome != Preregistered ==>
      t.data == old(t.data) && t.preregistrations == old(t.preregistrations)
    ensures t.attendance == old(t.attendance)
    ensures old(t.Valid()) ==> t.Valid()
  {
    if target.isBot {
      return BotRefused;
    }
    var hasUnlimited := target.hasUnlimitedRole;
    var total := t.GetTotalTime(targetId, now);
    var tier := GetUserRoleType(target.roleNames);
    if TimeLimitReached(tier, hasUnlimited, total) {
      return LimitReached(total);
    }
    var userData := t.GetUserData(targetId);
    if userData.Some? && userData.value.isPaused {
      return HasPausedTime;
    }
    if IsAfterAutoStart(hour, minute) {
      var ok, linked := StartAttributed(t, targetId, target.displayName, executorId, executorName, guild, now);
      if ok {
        return Started(linked);
      }
      return AlreadyActive;
    } else {
      var ok := t.PreregisterUser(targetId, target.displayName, executorId, executorName, now);
      if ok {
        return Preregistered;
      }
      return PreregistrationRefused;
    }
  }

  // ---------------------------------------------------------------
  // pausar_tiempo
  // ---------------------------------------------------------------

  datatype PauseOutcome = NotPaused | PauseRecorded(count: int) | CancelledAfterPauses(count: int)

  /** Every stored record has fewer pauses than the cancellation limit. */
  ghost predicate UnderPauseLimit(data: map<UserId, TrackedUser>) {
    forall k :: k in data ==> data[k].pauseCount < PauseLimit
  }

  /** `pausar_tiempo`: pause the session; when that makes the pause count
      reach 3, delete the member's record. The pause limit is therefore
      an invariant of the session store. */
  method PauseCommand(t: TimeTracker, id: UserId, now: int) returns (outcome: PauseOutcome)
    modifies t
    ensures outcome == NotPaused <==> !(id in old(t.data) && old(t.data)[id].isActive)
    ensures outcome == NotPaused ==> t.data == old(t.data)
    ensures outcome.PauseRecorded? ==>
      outcome.count == old(t.data)[id].pauseCount + 1 && outcome.count < PauseLimit
      && t.data == old(t.data)[id := PausedAt(old(t.data)[id], now)]
    ensures outcome.CancelledAfterPauses? ==>
      outcome.count == old(t.data)[id].pauseCount + 1 && outcome.count >= PauseLimit
      && t.data == old(t.data) - {id}
    ensures UnderPauseLimit(old(t.data)) ==> UnderPauseLimit(t.data)
    ensures t.attendance == old(t.attendance) && t.preregistrations == old(t.preregistrations)
    ensures old(t.Valid()) ==> t.Valid()
  {
    var ok := t.PauseTracking(id, now);
    if !ok {
      return NotPaused;
    }
    var count := t.GetPauseCount(id);
    if count >= PauseLimit {
      var cancelled := t.CancelUserTracking(id);
      return CancelledAfterPauses(count);
    }
    outcome := PauseRecorded(count);
  }
}
