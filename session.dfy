/** The per-member session state machine of the time tracker: the record
    transitions performed by start, pause, resume, stop, reset and the
    manual minute adjustments, and the live total that `get_total_time`
    reports. The dictionary-level guards (unknown member, wrong state) live
    in the `TimeTracker` class; this module says what each transition does
    to one record.
 */
module Session {
  import opened Records

  datatype Status = Inactive | Active | Paused

  /** How the source reads the two flags: `is_active` is tested first. */
  function StatusOf(u: TrackedUser): Status {
    if u.isActive then Active else if u.isPaused then Paused else Inactive
  }

  /** The record `start_tracking` creates for a member it has never seen. */
  function NewRecord(name: string): (u: TrackedUser)
    ensures StatusOf(u) == Inactive && u.name == name
    ensures u.totalTime == 0 && u.pauseCount == 0
    ensures u.sessions == [] && u.notifiedMilestones == [] && !u.milestoneCompleted
    ensures u.initiator == None && u.linkedTo == None
  {
    TrackedUser(name, 0, [], false, false, 0, [], false, None, None, None, None, None)
  }

  /** The record `start_tracking` works on: the stored one, or a fresh one
      when the member is unknown. */
  function RecordFor(data: map<UserId, TrackedUser>, id: UserId, name: string): (u: TrackedUser)
    ensures id in data ==> u == data[id]
    ensures id !in data ==> u == NewRecord(name) && CanStart(u)
  {
    if id in data then data[id] else NewRecord(name)
  }

  /** The shape every transition keeps: an active record knows when its
      session started and is not paused, a paused record knows when the
      pause began, and the pause counter is never negative. */
  ghost predicate WellFormed(u: TrackedUser) {
    && (u.isActive ==> u.lastStart.Some? && !u.isPaused)
    && (u.isPaused ==> u.pauseStart.Some?)
    && u.pauseCount >= 0
  }

  /** Seconds since `last_start`; 0 when the record has no `last_start`. */
  function SessionTime(u: TrackedUser, now: int): int {
    if u.lastStart.Some? then now - u.lastStart.value else 0
  }

  /** `get_total_time` for one record: the closed total, plus the running
      session while the record is active. */
  function LiveTotal(u: TrackedUser, now: int): int {
    u.totalTime + (if u.isActive && u.lastStart.Some? then now - u.lastStart.value else 0)
  }

  /** The guard of `start_tracking`: neither active nor paused. */
  predicate CanStart(u: TrackedUser) {
    !u.isActive && !u.isPaused
  }

  /** The successful branch of `start_tracking`. */
  function StartedAt(u: TrackedUser, name: string, now: int): (r: TrackedUser)
    ensures StatusOf(r) == Active && r.lastStart == Some(now) && r.name == name
    ensures r.totalTime == u.totalTime && r.pauseCount == u.pauseCount
    ensures r.notifiedMilestones == u.notifiedMilestones && r.sessions == u.sessions
    ensures CanStart(u) ==> LiveTotal(r, now) == LiveTotal(u, now)
  {
    u.(isActive := true, isPaused := false, lastStart := Some(now), name := name)
  }

  /** The successful branch of `pause_tracking`. */
  function PausedAt(u: TrackedUser, now: int): (r: TrackedUser)
    ensures StatusOf(r) == Paused && r.pauseStart == Some(now)
    ensures r.totalTime == u.totalTime + SessionTime(u, now)
    ensures r.pauseCount == u.pauseCount + 1
    ensures r.sessions == u.sessions && r.notifiedMilestones == u.notifiedMilestones
    ensures u.isActive ==> LiveTotal(r, now) == LiveTotal(u, now)
  {
    u.(totalTime := u.totalTime + SessionTime(u, now),
       isActive := false, isPaused := true,
       pauseStart := Some(now), pauseCount := u.pauseCount + 1)
  }

  /** The successful branch of `resume_tracking`. */
  function ResumedAt(u: TrackedUser, now: int): (r: TrackedUser)
    ensures StatusOf(r) == Active && r.lastStart == Some(now) && r.pauseStart == None
    ensures r.totalTime == u.totalTime && r.pauseCount == u.pauseCount
    ensures !u.isActive ==> LiveTotal(r, now) == LiveTotal(u, now)
  {
    u.(isActive := true, isPaused := false, lastStart := Some(now), pauseStart := None)
  }

  /** The successful branch of `stop_tracking`: the session time is folded
      into the total and exactly one closed session is appended. */
  function StoppedAt(u: TrackedUser, now: int): (r: TrackedUser)
    ensures StatusOf(r) == Inactive
    ensures |r.sessions| == |u.sessions| + 1 && r.sessions[..|u.sessions|] == u.sessions
    ensures r.totalTime == u.totalTime + r.sessions[|u.sessions|].duration
    ensures r.sessions[|u.sessions|] == SessionRecord(u.lastStart, now, SessionTime(u, now))
    ensures r.pauseCount == u.pauseCount && r.notifiedMilestones == u.notifiedMilestones
    ensures u.isActive ==> LiveTotal(r, now) == LiveTotal(u, now)
  {
    var d := SessionTime(u, now);
    u.(totalTime := u.totalTime + d, isActive := false, isPaused := false,
       sessions := u.sessions + [SessionRecord(u.lastStart, now, d)])
  }

  /** `reset_user_time`: everything but the name, the initiator and the
      link goes back to the state of a fresh record. */
  function Reset(u: TrackedUser): (r: TrackedUser)
    ensures StatusOf(r) == Inactive && r.name == u.name
    ensures forall now :: LiveTotal(r, now) == 0
    ensures r.pauseCount == 0 && r.sessions == [] && r.notifiedMilestones == []
    ensures !r.milestoneCompleted && r.lastStart == None && r.pauseStart == None
    ensures r.initiator == u.initiator && r.linkedTo == u.linkedTo
  {
    u.(totalTime := 0, isActive := false, isPaused := false, pauseCount := 0,
       sessions := [], notifiedMilestones := [], milestoneCompleted := false,
       lastStart := None, pauseStart := None)
  }

  /** `add_minutes` on an existing record. */
  function MinutesAdded(u: TrackedUser, name: string, minutes: int): (r: TrackedUser)
    ensures r.totalTime - u.totalTime == minutes * 60 && r.name == name
    ensures StatusOf(r) == StatusOf(u)
    ensures forall now :: LiveTotal(r, now) == LiveTotal(u, now) + minutes * 60
  {
    u.(totalTime := u.totalTime + minutes * 60, name := name)
  }

  /** `subtract_minutes` on an existing record: the total floors at zero. */
  function MinutesSubtracted(u: TrackedUser, minutes: int): (r: TrackedUser)
    ensures r.totalTime >= 0 && r.totalTime >= u.totalTime - minutes * 60
    ensures r.totalTime == 0 || r.totalTime == u.totalTime - minutes * 60
    ensures StatusOf(r) == StatusOf(u)
  {
    var t := u.totalTime - minutes * 60;
    u.(totalTime := if t < 0 then 0 else t)
  }

  /** A command of the session state machine, as issued to one record. */
  datatype Command = Start(name: string) | Pause | Resume | Stop

  /** One guarded step: the boolean is the method's return value, and a
      refused step leaves the record as it was. */
  function Apply(u: TrackedUser, c: Command, now: int): (TrackedUser, bool) {
    match c
    case Start(name) => if CanStart(u) then (StartedAt(u, name, now), true) else (u, false)
    case Pause => if u.isActive then (PausedAt(u, now), true) else (u, false)
    case Resume => if u.isPaused then (ResumedAt(u, now), true) else (u, false)
    case Stop => if u.isActive then (StoppedAt(u, now), true) else (u, false)
  }

  /** Every guarded step keeps a well-formed record well-formed and does
      not move the live total at the instant it happens. */
  lemma StepKeepsShapeAndTotal(u: TrackedUser, c: Command, now: int)
    requires WellFormed(u)
    ensures WellFormed(Apply(u, c, now).0)
    ensures LiveTotal(Apply(u, c, now).0, now) == LiveTotal(u, now)
    ensures !Apply(u, c, now).1 ==> Apply(u, c, now).0 == u
  {
  }

  /** Between two steps the live total of a well-formed record can only grow. */
  lemma LiveTotalGrowsWithTime(u: TrackedUser, t0: int, t1: int)
    requires WellFormed(u) && t0 <= t1
    ensures LiveTotal(u, t0) <= LiveTotal(u, t1)
    ensures !u.isActive ==> LiveTotal(u, t0) == LiveTotal(u, t1)
  {
  }

  /** Applying a sequence of timed commands in order. */
  function Run(u: TrackedUser, trace: seq<(Command, int)>): TrackedUser
    decreases |trace|
  {
    if trace == [] then u else Run(Apply(u, trace[0].0, trace[0].1).0, trace[1..])
  }

  ghost predicate TimesFrom(t0: int, trace: seq<(Command, int)>) {
    && (forall i :: 0 <= i < |trace| ==> t0 <= trace[i].1)
    && (forall i, j :: 0 <= i <= j < |trace| ==> trace[i].1 <= trace[j].1)
  }

  /** Elapsed-time monotonicity: along any sequence of start, pause, resume
      and stop commands at non-decreasing times, the live total read after
      the last command is at least the live total read before the first. */
  lemma {:induction false} RunNeverLosesTime(u: TrackedUser, trace: seq<(Command, int)>, t0: int, tEnd: int)
    requires WellFormed(u) && TimesFrom(t0, trace) && t0 <= tEnd
    requires forall i :: 0 <= i < |trace| ==> trace[i].1 <= tEnd
    ensures WellFormed(Run(u, trace))
    ensures LiveTotal(u, t0) <= LiveTotal(Run(u, trace), tEnd)
    decreases |trace|
  {
    if trace == [] {
      LiveTotalGrowsWithTime(u, t0, tEnd);
    } else {
      var (c, t1) := trace[0];
      var u' := Apply(u, c, t1).0;
      LiveTotalGrowsWithTime(u, t0, t1);
      StepKeepsShapeAndTotal(u, c, t1);
      assert TimesFrom(t1, trace[1..]) by {
        forall i | 0 <= i < |trace[1..]| ensures t1 <= trace[1..][i].1 {
          assert trace[1..][i] == trace[i + 1];
        }
      }
      RunNeverLosesTime(u', trace[1..], t1, tEnd);
    }
  }

  /** The pause/resume scenario: start at T0, pause at T0+1800, resume at
      T0+3600, stop at T0+5400. The member ends inactive with 3600 seconds,
      one pause and exactly one closed session, which covers only the
      1800 seconds after the resume (pausing appends no session). */
  lemma PauseResumeScenario(name: string, t0: int)
    ensures var u := Run(NewRecord(name), [(Start(name), t0), (Pause, t0 + 1800),
                                           (Resume, t0 + 3600), (Stop, t0 + 5400)]);
      && StatusOf(u) == Inactive && u.totalTime == 3600
      && u.pauseCount == 1
      && u.sessions == [SessionRecord(Some(t0 + 3600), t0 + 5400, 1800)]
  {
    var trace := [(Start(name), t0), (Pause, t0 + 1800), (Resume, t0 + 3600), (Stop, t0 + 5400)];
    var u0 := NewRecord(name);
    var u1 := Apply(u0, Start(name), t0).0;
    var u2 := Apply(u1, Pause, t0 + 1800).0;
    var u3 := Apply(u2, Resume, t0 + 3600).0;
    var u4 := Apply(u3, Stop, t0 + 5400).0;
    assert Run(u0, trace) == Run(u1, trace[1..]);
    assert Run(u1, trace[1..]) == Run(u2, trace[2..]);
    assert Run(u2, trace[2..]) == Run(u3, trace[3..]);
    assert Run(u3, trace[3..]) == Run(u4, []);
  }
}
