# Time tracking and attendance engine

This project is a Dafny model of the bookkeeping core of a Discord bot that
tracks how long members spend in supervised sessions. It also models how the
bot rewards the admins who ran those sessions.

The model covers:

- **The `TimeTracker` object** (`Tracker.TimeTracker`, file `tracker.dfy`).
  - It holds three dictionaries that its methods update in place:
    - the session store: per member, the total time, the active and paused
      flags, pause count, closed sessions, reported hour milestones,
      initiator and link;
    - the attendance ledger: per admin, the daily counts, lifetime total and
      manual weekly bonus;
    - the pre-registration queue.
  - Each operation that changes state is a Dafny method with
    `modifies this`. Its contract states its return value and its whole new
    state, in terms of the record-level functions of the modules below.
  - The getters are functions that read the object. The one exception is
    `GetWeeklyAttendance`, whose summing loop is a method that changes
    nothing.
  - Every state-changing method keeps the class invariant `Valid()`:
    - session records are well-formed;
    - daily attendance counts stay within 0..3;
    - totals and bonuses stay non-negative.
- **Session transitions** (`Session`).
  - Start, pause, resume, stop, reset and the manual minute adjustments.
  - The live total that `get_total_time` reports.
  - A small command language used to prove that any run of guarded commands
    at non-decreasing instants never loses tracked time.
- **Ledger rules** (`Ledger`).
  - The Monday-to-Friday weekly figure.
  - The capped grant of `add_attendance`, with a daily cap of 3 and a
    weekly cap of 15.
  - The two manual grant paths.
- **Hour milestones** (`Milestones`).
  - The loop that collects the hour boundaries that have been passed but not
    yet reported.
  - The loop that marks them as reported.
  - Idempotence: a rescan after marking finds nothing.
- **Bot rules** (`Bot`, file `bot.dfy`).
  - Who receives a milestone's attendance.
  - The live milestone check and the periodic per-member milestone step.
  - The `iniciar_tiempo` command: bot refusal, the 2 h / 4 h limits, the
    paused-time refusal, start at or after 20:16 with initiator and
    auto-link, otherwise pre-registration.
  - The `pausar_tiempo` command, which cancels the session at the third
    pause.
- **Pure policies**.
  - Credits for tracked time by tier, and session credits (`Credits`).
  - Tier resolution from role names (`Tiers`).
  - The Spanish duration rendering `format_time_human` (`Duration`).

Conventions:

- Time is integer seconds, passed in as `now`.
- Calendar days are integer indices with day 0 a Monday. The weekday is
  `day % 7` and the week starts on `day - day % 7`.
- The local clock of `iniciar_tiempo` is passed as `hour` and `minute`.
- The Discord server is a map from member id to `Member`: display name, role
  names, the unlimited-role flag and the bot flag. A member missing from the
  map is not on the server. The bot is taken to be in one server (see
  "## Left out").

## Model

| member | source | states |
|---|---|---|
| Session.NewRecord | time_tracker.py:40-50 | a first-seen member starts inactive with zero time, no pauses, no sessions, no milestones and no initiator or link |
| Session.RecordFor | time_tracker.py:40-52 | `start_tracking` works on the stored record, or else on a fresh record, which can always start |
| Session.StartedAt | time_tracker.py:62-66 | a start makes the record active with `last_start = now` and the new name; total, pauses, sessions and milestones are untouched; from a startable record the live total does not jump |
| Session.PausedAt | time_tracker.py:121-131 | a pause folds the elapsed session time into the total, makes the record paused with `pause_start = now` and adds exactly one pause; for an active record the live total is continuous |
| Session.ResumedAt | time_tracker.py:148-155 | a resume makes the record active again with `last_start = now` and no `pause_start`; total and pause count are unchanged |
| Session.StoppedAt | time_tracker.py:83-104 | a stop makes the record inactive, appends exactly one session whose duration is the elapsed time, grows the total by exactly that duration and keeps the earlier sessions in place |
| Session.Reset | time_tracker.py:194-207 | a reset zeroes the time (the live total is 0 at every instant), pauses, sessions and milestones, clears the flags and timestamps, and keeps the name, initiator and link |
| Session.MinutesAdded | time_tracker.py:251-253 | adding minutes moves the stored and the live total by exactly minutes x 60, refreshes the name and keeps the state |
| Session.MinutesSubtracted | time_tracker.py:265-268 | subtracting minutes yields max(0, total - minutes x 60): never negative, and either 0 or the exact difference |
| Session.StepKeepsShapeAndTotal | time_tracker.py:35-158 | every guarded start, pause, resume or stop keeps a record well-formed and leaves the live total unchanged at that instant; a refused step changes nothing |
| Session.LiveTotalGrowsWithTime | time_tracker.py:160-176 | `Session.LiveTotal` (the stored total plus the running session, as `get_total_time` computes it): between steps the live total of a well-formed record never decreases, and it is constant while the record is not active |
| Session.RunNeverLosesTime | time_tracker.py:35-176 | along any sequence of commands at non-decreasing instants, the live total after the last command is at least the live total before the first |
| Session.PauseResumeScenario | time_tracker.py:35-158 | start, pause after 30 min, resume 30 min later and stop 30 min after that: the member ends inactive with 3600 s, one pause and exactly one closed session of 1800 s |
| Tracker.TimeTracker.constructor | time_tracker.py:8-14 | the tracker starts from the three stores as loaded, and satisfies `Valid()` whenever the loaded records are well formed and capped |
| Tracker.TimeTracker.StartTracking | time_tracker.py:35-69 | succeeds exactly for an unknown member or a record that is neither active nor paused; on success the record is `StartedAt`, otherwise nothing changes (a refused start creates no record) |
| Tracker.TimeTracker.StopTracking | time_tracker.py:71-107 | succeeds exactly for an active record, which becomes `StoppedAt`; otherwise nothing changes |
| Tracker.TimeTracker.PauseTracking | time_tracker.py:109-134 | succeeds exactly for an active record, which becomes `PausedAt`; otherwise nothing changes |
| Tracker.TimeTracker.ResumeTracking | time_tracker.py:136-158 | succeeds exactly for a paused record, which becomes `ResumedAt`; otherwise nothing changes |
| Tracker.TimeTracker.GetTotalTime | time_tracker.py:160-176 | 0 for an unknown member, the stored total when not active or when no `last_start` is stored, and the stored total plus the running session when active |
| Tracker.TimeTracker.GetUserData | time_tracker.py:178-181 | the stored record exactly when the member is known |
| Tracker.TimeTracker.ResetUserTime | time_tracker.py:187-210 | succeeds exactly for a known member, whose record becomes `Reset`; no other record changes |
| Tracker.TimeTracker.ResetAllUserTimes | time_tracker.py:212-219 | every record is reset, none is added or removed, and the count equals the number of records |
| Tracker.TimeTracker.CancelUserTracking | time_tracker.py:221-231 | the record is deleted and nothing else changes; succeeds exactly when it existed |
| Tracker.TimeTracker.ClearAllData | time_tracker.py:233-241 | the session store becomes empty; the ledger and the queue are untouched |
| Tracker.TimeTracker.AddMinutes | time_tracker.py:243-256 | an unknown member is refused and no record is created; otherwise the record becomes `MinutesAdded` |
| Tracker.TimeTracker.SubtractMinutes | time_tracker.py:258-271 | an unknown member is refused; otherwise the record becomes `MinutesSubtracted`, so the total never goes negative |
| Tracker.TimeTracker.GetPauseCount | time_tracker.py:273-278 | the stored pause count, 0 for an unknown member |
| Tracker.TimeTracker.GetPausedDuration | time_tracker.py:280-293 | the seconds since the pause began for a paused record with a pause instant, otherwise 0 |
| Tracker.TimeTracker.AddManualAttendance | time_tracker.py:333-361 | quantities outside 1..15 are refused with no change; otherwise the admin is enrolled, the bonus and the total grow by the quantity, and no daily count moves |
| Tracker.TimeTracker.AddDailyManualAttendance | time_tracker.py:363-402 | quantities outside 1..3 are refused with no change; otherwise the grant is `DailyManualGrant` on the record enrolled for today |
| Tracker.TimeTracker.AddAttendance | time_tracker.py:404-447 | the result and the new ledger are the ledger's `Grant` on the record enrolled for today; the enrolment is kept even when the grant is refused |
| Tracker.TimeTracker.GetDailyAttendance | time_tracker.py:449-457 | today's count (0 when absent); in a valid tracker it lies in 0..3 |
| Tracker.TimeTracker.GetWeeklyAttendance | time_tracker.py:459-480 | the Monday-to-Friday loop computes exactly `WeeklyFigure`; in a valid tracker it lies between the manual bonus and 15 plus the bonus |
| Tracker.TimeTracker.GetTotalAttendance | time_tracker.py:482-489 | the lifetime total, 0 for an unknown admin, never negative in a valid tracker |
| Tracker.TimeTracker.SetTimeInitiator | time_tracker.py:499-508 | records the admin and the instant as initiator of a known member only |
| Tracker.TimeTracker.GetTimeInitiator | time_tracker.py:510-515 | the stored initiator, none for an unknown member |
| Tracker.TimeTracker.ClearTimeInitiator | time_tracker.py:517-522 | removes the initiator of a known member and changes nothing else |
| Tracker.TimeTracker.ResetWeeklyManualAttendances | time_tracker.py:524-528 | every manual bonus becomes 0; every other field and every other store is unchanged |
| Tracker.TimeTracker.LinkTimeToUser | time_tracker.py:530-551 | succeeds exactly for an active record, whose link is set (an existing link is overwritten); otherwise nothing changes |
| Tracker.TimeTracker.UnlinkTime | time_tracker.py:553-567 | succeeds exactly when a link is present, and removes only the link |
| Tracker.TimeTracker.IsTimeLinked | time_tracker.py:569-576 | holds exactly for a known member with a link |
| Tracker.TimeTracker.GetLinkedUser | time_tracker.py:578-585 | a link is returned exactly when `IsTimeLinked`, and it is the stored link |
| Tracker.TimeTracker.ResetAllAttendances | time_tracker.py:591-599 | the ledger becomes empty; sessions and the queue are untouched |
| Tracker.TimeTracker.PreregisterUser | time_tracker.py:620-643 | refused when the member is already queued or has an active or paused record; otherwise exactly that entry is queued and sessions are untouched |
| Tracker.TimeTracker.ActivatePreregistration | time_tracker.py:649-674 | succeeds exactly when the member is queued and can start; then the session starts under the queued name, the registering admin becomes initiator and the entry leaves the queue; on failure nothing changes and the entry stays queued |
| Tracker.TimeTracker.CleanExpiredPreregistrations | time_tracker.py:676-687 | the queue is emptied and its former size returned |
| Tracker.TimeTracker.RemovePreregistration | time_tracker.py:689-696 | the entry is removed; succeeds exactly when it was queued |
| Ledger.Weekday | time_tracker.py:469-470 | the weekday lies in 0..6 |
| Ledger.WeekStart | time_tracker.py:469-470 | the week start is a Monday, at most six days before today |
| Ledger.WindowSumUpdate | time_tracker.py:472-475 | changing one day's count moves a window sum by the difference exactly when that day is in the window |
| Ledger.WindowSumBounded | time_tracker.py:472-475 | a window of capped days sums to between 0 and 3 per day |
| Ledger.WindowSumOfCounts | time_tracker.py:472-475 | a window sum depends only on the per-day counts (`get(date, 0)`), not on which days have keys |
| Ledger.GrantAmount | time_tracker.py:424-441 | nothing is granted once either cap is reached or for a non-positive request; otherwise the request is truncated so that neither cap is exceeded, and a truncated amount fills one cap exactly |
| Ledger.Enrolled | time_tracker.py:409-418 | an existing record keeps its counts, total and bonus under the refreshed name; a new one starts empty |
| Ledger.EnrolledForDay | time_tracker.py:420-422 | enrolment for today adds today's key without changing any count, the total or the bonus |
| Ledger.EnrolmentKeepsWeeklyFigure | time_tracker.py:409-422 | enrolling a member leaves the weekly figure of any day as the stored record had it, and 0 for a member without a record |
| Ledger.RefusedGrantKeepsRecord | time_tracker.py:424-447 | `Ledger.Grant` (the record and the success flag `add_attendance` produces): a refused grant leaves an enrolled record exactly as it was |
| Ledger.GrantedWeeklyFigure | time_tracker.py:442-443 | adding to today's count moves the weekly figure by the same amount on a weekday and not at all on a weekend |
| Ledger.AddAttendanceKeepsCaps | time_tracker.py:404-447 | `Ledger.Grant`: a grant never takes today's count above 3 or the weekly figure above 15; the amount added to the total equals the amount added to today's count; a refused grant adds nothing; other days are unchanged |
| Ledger.GrantKeepsDailyCapped | time_tracker.py:424-443 | a grant keeps every daily count of a capped record within 0..3 |
| Ledger.FourGrantsInOneDay | time_tracker.py:404-447 | from an empty weekday record, three single grants succeed, the fourth is refused, and the total is 3 |
| Ledger.ManualBonusAdded | time_tracker.py:357-359 | the manual path moves no daily count and raises the total, and the weekly figure of every day, by exactly the quantity |
| Ledger.DailyManualKeepsDailyCap | time_tracker.py:384-395 | the daily manual path succeeds exactly when today + quantity <= 3, then adds the whole quantity to today and to the total, refuses otherwise with no change, and keeps every count within 0..3 |
| Duration.NatToStringRoundTrip | time_tracker.py:306-310 | the decimal rendering of a count reads back as that count |
| Duration.PartsDescribeDuration | time_tracker.py:295-312 | the rendering has 1 to 3 parts in strictly decreasing units, minutes and seconds below 60, no zero part except a lone "0 Segundos", and the parts add up to the input (0 for a negative input) |
| Duration.FormatTimeHuman | time_tracker.py:295-312 | a negative input renders as "0 Segundos", and every rendering is non-empty and starts with a digit |
| Duration.WholeHours | time_tracker.py:300-310 | a whole number of hours renders as that many hours alone |
| Duration.TotalAppend | time_tracker.py:304-310 | the seconds of concatenated parts are the sum of the seconds of each |
| Credits.HourlyRate | bot.py:282-305 | a tier earns per-hour credits exactly when it is not an attendance tier |
| Credits.CalculateCredits | bot.py:273-312 | 0 for a negative input; otherwise the hourly rate times the completed hours capped at 2 (Gold 6/12, Medios 5/10, the others 4/8, attendance tiers 0) |
| Credits.CreditsMonotone | bot.py:273-312 | for a fixed tier, more tracked time never earns fewer credits |
| Credits.CreditsOnlyBelowAttendanceTiers | bot.py:282-284 | a tier earns no credit at any time exactly when it is an attendance tier, and never more than twice its hourly rate |
| Credits.CalculateCreditsFromTime | bot.py:314-332 | 0 for non-positive minutes; otherwise 1 for 1..39 minutes, 2 for 40..59 and 3 from 60 on |
| Credits.CreditsFromTimeMonotone | bot.py:314-332 | more minutes never earn fewer session credits |
| Tiers.Level | bot.py:1893-1929 | levels lie in 0..7, and only the no-tier value has level 0 |
| Tiers.Lower | bot.py:1939 | lower-casing keeps the length and maps each character |
| Tiers.ContainsIsOccurs | bot.py:1940 | the left-to-right scan finds the keyword exactly when it occurs at some position of the role name |
| Tiers.AnyRoleContainsIsHoldsKeyword | bot.py:1938-1941 | the inner loop succeeds exactly when some lower-cased role name contains the keyword |
| Tiers.FirstMatchIsFirst | bot.py:1937-1943 | the outer loop returns the first tier of the list whose keyword occurs, and "normal" exactly when none occurs |
| Tiers.RoleTypeIsHighestMatch | bot.py:1931-1943 | `Tiers.GetUserRoleType`, as `get_user_role_type`, returns a tier whose keyword occurs, no higher tier's keyword occurs, and "normal" exactly when no keyword occurs |
| Tiers.AttendanceRoleIsLevelThreeUp | bot.py:1975-1978 | `Tiers.HasAttendanceRole`, as `has_attendance_role`, holds exactly for the tiers of level 3 (Altos) and above |
| Milestones.CompletedHours | bot.py:1225 | for every total, negative ones included, the completed hours h satisfy h x 3600 <= total < (h + 1) x 3600; h >= 0 for a non-negative total and h >= 1 once an hour has passed |
| Milestones.CollectMissing | bot.py:1627-1631 | the list holds exactly the hours 1..total_hours whose boundary is not yet reported, in increasing order |
| Milestones.MarkNotified | bot.py:1642-1645 | the reported list keeps its old entries in place and gains each missing boundary, each at most once, and nothing else |
| Milestones.MarkedIsExact | bot.py:1624-1645 | marking the collected hours appends exactly the missing boundaries of the total: old entries stay, every missing boundary is added, each added entry is one, and none twice |
| Milestones.RescanFindsNothing | bot.py:1624-1645 | once the missing hours are marked, a rescan of the same total finds nothing missing |
| Milestones.LastIsHighest | bot.py:1634-1635 | the last collected hour is the highest missing hour |
| Milestones.CurrentHourReportedWhenNothingMissing | bot.py:1225-1236 | with an hour accumulated and nothing missing, the current hour boundary is already reported |
| Bot.Recipient | bot.py:1306-1320 | the recipient is the link if there is one, else the initiator, else nobody |
| Bot.MilestoneGrant | bot.py:1300-1356 | with no recipient, or one off the server or without an attendance tier, the ledger is unchanged and nothing is granted; otherwise only the recipient's record changes (enrolled if new), the grant succeeds exactly when today's count is under 3 and the weekly figure under 15, and then the total and today's count each grow by exactly 1 |
| Bot.AddAttendanceForMilestone | bot.py:1300-1356 | the ledger becomes `MilestoneGrant` of the stores as they were; sessions and pre-registrations are untouched |
| Bot.CurrentHourBranchNeedsNegativeTotal | bot.py:1266 | the second branch of the live check can only be taken by a record whose stored total is negative |
| Bot.CheckTimeMilestone | bot.py:1150-1298 | nothing happens unless the record is active with a start and its session has lasted an hour; otherwise the outcome is `DueOutcome` (see `Bot.ReportDueMilestone`), which fixes the member's whole new record and the ledger |
| Bot.ReportDueMilestone | bot.py:1212-1290 | `DueOutcome`: it reports exactly when a boundary is missing or the current one is unreported; with hours missing it reports the highest one and adds exactly the missing boundaries (`MarkedExactly`); otherwise it reports the current hour, appends that boundary alone and flags an unlimited member's milestone; a report stops the session with its total kept, leaves nothing missing on a rescan and leaves the ledger as `MilestoneGrant` makes it for a member on the server; the member's whole new record is `Settled` with the new list: the closed session appended by `stop_tracking`, and the name, pause count, initiator, link and timestamps kept; no other record changes |
| Bot.ReportMissingHours | bot.py:1236-1264 | the first branch meets `DueOutcome`: the highest missing hour, exactly the missing boundaries added, the session stopped and appended, `milestoneCompleted` and `lastMilestoneCheck` unchanged, every other field kept, and the milestone grant |
| Bot.ReportCurrentHour | bot.py:1266-1290 | the second branch meets `DueOutcome`: the current hour, its boundary appended alone, the session stopped and appended, the milestone flag set for an unlimited member and otherwise kept, every other field kept, and the milestone grant |
| Bot.MissingHoursOutcome | bot.py:1236-1264 | the stores the first branch writes meet `DueOutcome` |
| Bot.ProcessSingleUserMilestone | bot.py:1586-1693 | `ProcessOutcome`: it reports exactly when some boundary is missing, and then the highest such hour; the record ends not active with the same live total, exactly the missing boundaries added (`MarkedExactly`), nothing missing on a rescan, the checked total recorded and the completed flag for unlimited members; the whole new record is `Settled` with the new list, so the closed session is appended when the record was active, a paused or inactive record keeps its status and sessions, and the name, pause count, initiator and link are kept; the ledger is as `MilestoneGrant` makes it for a member on the server; with nothing missing nothing changes |
| Bot.ProcessedRecord | bot.py:1634-1683 | the stores a report of the periodic step writes meet `ProcessOutcome`, and the record stays well formed |
| Bot.SettledReport | bot.py:1634-1670 | after marking the missing hours and stopping, the reported hour is the highest missing one, exactly the missing boundaries are added, the live total is kept and a rescan finds nothing |
| Bot.Settled | bot.py:1242-1288 | the written record has the new reported list, the same live total, a closed session (the record stopped and exactly one session appended) when asked to stop and the record is running, otherwise the same status and sessions, and the flags as requested |
| Bot.SettleMilestone | bot.py:1641-1683 | the session store changes only at the member, to `Settled`; ledger and queue are untouched |
| Bot.GrantIfOnServer | bot.py:1638-1639 | the ledger becomes `MilestoneGrant` for a member on the server and is unchanged otherwise |
| Bot.IsAfterAutoStart | bot.py:394 | for a valid minute, the clock test holds exactly at or after 20:16 |
| Bot.TimeLimitReached | bot.py:357-383 | the limit is reached exactly when the total is at least 4 h for a member with the unlimited role outside Gold and Medios, and at least 2 h otherwise |
| Bot.LimitReachedIsMonotone | bot.py:357-383 | once reached, a limit stays reached as time grows, and the unlimited role never lowers the limit |
| Bot.StartAttributed | bot.py:395-412 | the start succeeds exactly when the target can start; then the executor becomes initiator, and the session is linked to the executor exactly when the executor can earn attendance |
| Bot.StartCommand | bot.py:337-451 | bots are refused; the limit refusal happens exactly when `TimeLimitReached` on the live total; past those checks, the paused refusal happens exactly for a paused record; then at or after 20:16 the session starts exactly when the record can start (with initiator and auto-link) and is otherwise reported already active; before 20:16 the member is pre-registered exactly when not queued and able to start, and refused otherwise; refusals change nothing |
| Bot.PauseCommand | bot.py:454-491 | pauses exactly an active record; a pause that reaches 3 deletes the record; no stored record ever reaches 3 pauses if none had before |

## Left out

- Persistence: `load_data`, `save_data` and the attendance and pre-registration equivalents read and write JSON files. Each change is taken to be saved at once, so saving is a no-op.
- Clock and dates: `datetime.now()`, ISO timestamps and date strings become the integer parameters `now`, `today`, `hour` and `minute`. A `last_start` that does not parse, which makes the milestone check return early, is not modelled.
- Floating point: seconds are integers. The credit rules divide floats, which for integer inputs gives the same thresholds and the same truncated values.
- Discord plumbing: messages, embeds, views, notification senders with retries, role assignment and error handlers. Only the command decisions are modelled.
- The periodic loops and their concurrent batches (`periodic_milestone_check`, `check_missing_milestones`). Only the per-member step they call is modelled, as `Bot.ProcessSingleUserMilestone`.
- `get_all_tracked_users`, `get_preregistered_users` and `get_attendance_info`: they return copies or bundles of getters already modelled.
- `get_users_initiated_by_admin`: a display listing sorted by lower-cased name. It changes nothing and no modelled rule depends on it.
- `can_receive_daily_attendance` always returns true, so `Bot.AddAttendanceForMilestone` omits the check.
- `has_unlimited_time_role` compares role ids with `UNLIMITED_TIME_ROLE_ID`. That constant is `None` by default and is loaded from `config.json` at start-up. The model takes the flag from `Member.hasUnlimitedRole`, so it covers any configuration.
- The bot is taken to be in one server. The milestone checks look the tracked member up in `bot.guilds[0]` (bot.py:1160-1162, bot.py:1602-1604). `add_attendance_for_milestone` looks the admin up in every server the bot is in (bot.py:1329-1333). The model uses one `guild` map for both lookups, so it refuses the attendance to an admin who is only in another server, although the code grants it.
- The `is_external_user` flag is read but never used by the modelled logic.
- The weekly credit formula of the payment views (`int((r/15)*w)`) belongs to the reporting UI.
- Tiers.Lower: only ASCII letters are lower-cased. Python's `str.lower()` also folds non-ASCII letters, which no tier keyword contains.
- Bot.StartCommand: the message texts, and the note shown when the executor cannot auto-link, are not modelled. The response to a link attempt that fails cannot occur, because the session was just started.

Three behaviours of the code that a reader might not expect:

- `pause_tracking` and `stop_tracking` keep `last_start`, and `stop_tracking` keeps `pause_start`. Only `resume_tracking` removes `pause_start`, and only `reset_user_time` removes both.
- `link_time_to_user` does not refuse a session that is already linked. It overwrites the link.
- In `check_time_milestone`, the branch that reports the current hour when no hour is missing is reachable only when the stored total is negative (`Bot.CurrentHourBranchNeedsNegativeTotal`). It is modelled as written.
