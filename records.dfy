/** The persisted entities of the time tracker.

    The tracker keeps three dictionaries keyed by member id: tracked users,
    attendance records and pre-registrations. Each record becomes a datatype
    here with its optional keys as `Option` fields. Timestamps are integer
    seconds. Calendar days are integer day indices, and day 0 is a Monday.
 */
module Records {

  datatype Option<+T> = None | Some(value: T)

  /** Member ids; the source keys its dictionaries by `str(user_id)`. */
  type UserId = int

  /** The `time_initiator` and `linked_to` sub-records: who gets the
      attendance for a session, and when that was recorded. */
  datatype AdminRef = AdminRef(adminId: UserId, adminName: string, at: int)

  /** One closed session appended by `stop_tracking`. */
  datatype SessionRecord = SessionRecord(start: Option<int>, end: int, duration: int)

  /** One entry of the session store. */
  datatype TrackedUser = TrackedUser(
    name: string,
    totalTime: int,
    sessions: seq<SessionRecord>,
    isActive: bool,
    isPaused: bool,
    pauseCount: int,
    notifiedMilestones: seq<int>,
    milestoneCompleted: bool,
    lastStart: Option<int>,
    pauseStart: Option<int>,
    initiator: Option<AdminRef>,
    linkedTo: Option<AdminRef>,
    lastMilestoneCheck: Option<int>
  )

  /** One entry of the attendance store. A record created by `add_attendance`
      has no `manual_weekly_attendance` key; every reader defaults it to 0,
      which is the value it has here. */
  datatype AttendanceRecord = AttendanceRecord(
    name: string,
    dailyAttendance: map<int, int>,
    totalAttendance: int,
    manualWeeklyAttendance: int
  )

  /** One entry of the pre-registration store. */
  datatype PreregistrationEntry = PreregistrationEntry(
    name: string,
    registeredById: UserId,
    registeredByName: string,
    registeredAt: int
  )

  /** What the calling layer knows about a member of the server: the
      display name, the role names, whether the member holds the
      unlimited-time role and whether the account is a bot. */
  datatype Member = Member(displayName: string, roleNames: seq<string>, hasUnlimitedRole: bool, isBot: bool)
}
