/** The attendance ledger: per-day attendance counts with a daily cap of 3,
    a weekly figure (the Monday to Friday sum of the current week plus the
    manual weekly bonus) with a cap of 15 on the normal grant path, and a
    lifetime total. This module holds the record-level rules; the
    `TimeTracker` class applies them to its attendance dictionary.
 */
module Ledger {
  import opened Records

  const DailyCap: int := 3
  const WeeklyCap: int := 15

  /** `daily_attendance.get(day, 0)`. */
  function Count(daily: map<int, int>, day: int): int {
    if day in daily then daily[day] else 0
  }

  /** Python's `weekday()`: 0 is Monday, 6 is Sunday (day 0 is a Monday). */
  function Weekday(day: int): (w: int)
    ensures 0 <= w < 7
  {
    day % 7
  }

  /** The Monday of the week that contains `today`. */
  function WeekStart(today: int): (m: int)
    ensures Weekday(m) == 0 && m <= today < m + 7
  {
    today - today % 7
  }

  /** The sum of the counts of the `n` days that start at `from`. */
  function WindowSum(daily: map<int, int>, from: int, n: nat): int
    decreases n
  {
    if n == 0 then 0 else WindowSum(daily, from, n - 1) + Count(daily, from + n - 1)
  }

  /** `get_weekly_attendance` for one record: Monday to Friday of the
      current week plus the manual weekly bonus. */
  function WeeklyFigure(rec: AttendanceRecord, today: int): int {
    WindowSum(rec.dailyAttendance, WeekStart(today), 5) + rec.manualWeeklyAttendance
  }

  /** Every daily count of a record lies between 0 and the daily cap. */
  ghost predicate DailyCapped(rec: AttendanceRecord) {
    forall d :: d in rec.dailyAttendance ==> 0 <= rec.dailyAttendance[d] <= DailyCap
  }

  /** Changing one day's count changes a window sum by the difference
      exactly when that day lies inside the window. */
  lemma {:induction false} WindowSumUpdate(daily: map<int, int>, from: int, n: nat, day: int, v: int)
    ensures WindowSum(daily[day := v], from, n)
         == WindowSum(daily, from, n) + (if from <= day < from + n then v - Count(daily, day) else 0)
    decreases n
  {
    if n > 0 {
      WindowSumUpdate(daily, from, n - 1, day, v);
    }
  }

  /** No keys, nothing to sum. */
  lemma {:induction false} WindowSumEmpty(from: int, n: nat)
    ensures WindowSum(map[], from, n) == 0
    decreases n
  {
    if n > 0 {
      WindowSumEmpty(from, n - 1);
    }
  }

  /** A window sum only depends on the counts, not on which days have keys. */
  lemma {:induction false} WindowSumOfCounts(a: map<int, int>, b: map<int, int>, from: int, n: nat)
    requires forall d :: Count(a, d) == Count(b, d)
    ensures WindowSum(a, from, n) == WindowSum(b, from, n)
    decreases n
  {
    if n > 0 {
      WindowSumOfCounts(a, b, from, n - 1);
    }
  }

  /** A window of days whose counts are all within the daily cap sums to at
      most the cap times its length. */
  lemma {:induction false} WindowSumBounded(rec: AttendanceRecord, from: int, n: nat)
    requires DailyCapped(rec)
    ensures 0 <= WindowSum(rec.dailyAttendance, from, n) <= DailyCap * n
    decreases n
  {
    if n > 0 {
      WindowSumBounded(rec, from, n - 1);
    }
  }

  /** The amount `add_attendance` grants when today's count is `daily`, the
      weekly figure is `weekly` and `requested` attendances are asked for:
      nothing once either cap is reached, otherwise the request truncated
      so that neither cap is exceeded. */
  function GrantAmount(daily: int, weekly: int, requested: int): (a: int)
    ensures a >= 0
    ensures a == 0 <==> (daily >= DailyCap || weekly >= WeeklyCap || requested <= 0)
    ensures a > 0 ==> daily + a <= DailyCap && weekly + a <= WeeklyCap && a <= requested
    ensures a > 0 ==> a == requested || daily + a == DailyCap || weekly + a == WeeklyCap
  {
    if daily >= DailyCap || weekly >= WeeklyCap then 0
    else
      var toDaily := if daily + requested > DailyCap then DailyCap - daily else requested;
      var toWeekly := if weekly + toDaily > WeeklyCap then WeeklyCap - weekly else toDaily;
      if toWeekly > 0 then toWeekly else 0
  }

  /** The record a grant path works on: created empty when missing, with
      the name refreshed. */
  function Enrolled(ledger: map<UserId, AttendanceRecord>, id: UserId, name: string): (r: AttendanceRecord)
    ensures r.name == name
    ensures id in ledger ==>
      (r.dailyAttendance == ledger[id].dailyAttendance
       && r.totalAttendance == ledger[id].totalAttendance
       && r.manualWeeklyAttendance == ledger[id].manualWeeklyAttendance)
    ensures id !in ledger ==>
      (r.dailyAttendance == map[] && r.totalAttendance == 0 && r.manualWeeklyAttendance == 0)
  {
    (if id in ledger then ledger[id] else AttendanceRecord(name, map[], 0, 0)).(name := name)
  }

  /** `Enrolled` plus today's key initialised to 0 when missing: no count,
      total or bonus changes. */
  function EnrolledForDay(ledger: map<UserId, AttendanceRecord>, id: UserId, name: string, today: int): (r: AttendanceRecord)
    ensures today in r.dailyAttendance && r.name == name
    ensures forall d :: Count(r.dailyAttendance, d) == Count(Enrolled(ledger, id, name).dailyAttendance, d)
    ensures r.totalAttendance == Enrolled(ledger, id, name).totalAttendance
    ensures r.manualWeeklyAttendance == Enrolled(ledger, id, name).manualWeeklyAttendance
  {
    var r := Enrolled(ledger, id, name);
    if today in r.dailyAttendance then r
    else r.(dailyAttendance := r.dailyAttendance[today := 0])
  }

  /** Enrolment changes no weekly figure: a new record's figure is 0, and an
      existing record's is unchanged by the refreshed name or a zero key. */
  lemma EnrolmentKeepsWeeklyFigure(ledger: map<UserId, AttendanceRecord>, id: UserId, name: string,
                                   today: int, day: int)
    ensures WeeklyFigure(EnrolledForDay(ledger, id, name, today), day)
         == (if id in ledger then WeeklyFigure(ledger[id], day) else 0)
  {
    var r := EnrolledForDay(ledger, id, name, today);
    var e := Enrolled(ledger, id, name);
    WindowSumOfCounts(r.dailyAttendance, e.dailyAttendance, WeekStart(day), 5);
    if id !in ledger {
      WindowSumEmpty(WeekStart(day), 5);
    }
  }

  /** Adds `a` attendances to today's count and to the lifetime total. */
  function Granted(rec: AttendanceRecord, today: int, a: int): AttendanceRecord {
    rec.(dailyAttendance := rec.dailyAttendance[today := Count(rec.dailyAttendance, today) + a],
         totalAttendance := rec.totalAttendance + a)
  }

  /** `add_attendance` on one record, after `EnrolledForDay`: the amount is
      `GrantAmount`, and the boolean is whether anything was granted. */
  function Grant(rec: AttendanceRecord, today: int, requested: int): (AttendanceRecord, bool) {
    var a := GrantAmount(Count(rec.dailyAttendance, today), WeeklyFigure(rec, today), requested);
    (Granted(rec, today, a), a > 0)
  }

  /** A refused grant leaves an enrolled record exactly as it was. */
  lemma RefusedGrantKeepsRecord(rec: AttendanceRecord, today: int, requested: int)
    requires today in rec.dailyAttendance
    ensures !Grant(rec, today, requested).1 ==> Grant(rec, today, requested).0 == rec
  {
    var a := GrantAmount(Count(rec.dailyAttendance, today), WeeklyFigure(rec, today), requested);
    if a <= 0 {
      assert rec.dailyAttendance[today := Count(rec.dailyAttendance, today) + a] == rec.dailyAttendance;
    }
  }

  /** Adding to today's count moves the weekly figure by the same amount
      on a weekday and leaves it alone on a weekend. */
  lemma GrantedWeeklyFigure(rec: AttendanceRecord, today: int, a: int)
    ensures WeeklyFigure(Granted(rec, today, a), today)
         == WeeklyFigure(rec, today) + (if Weekday(today) < 5 then a else 0)
  {
    var m := WeekStart(today);
    WindowSumUpdate(rec.dailyAttendance, m, 5, today, Count(rec.dailyAttendance, today) + a);
    assert (m <= today < m + 5) <==> Weekday(today) < 5;
  }

  /** The caps of the normal grant path: a grant never pushes today's count
      above 3 or the weekly figure above 15, the amount added to the total
      is the amount added to today's count, the weekly figure moves by that
      amount on a weekday and not at all on a weekend, and a refused grant
      changes no count. */
  lemma AddAttendanceKeepsCaps(rec: AttendanceRecord, today: int, requested: int)
    ensures var (r, ok) := Grant(rec, today, requested);
      var a := r.totalAttendance - rec.totalAttendance;
      && a == Count(r.dailyAttendance, today) - Count(rec.dailyAttendance, today)
      && a >= 0 && (ok <==> a > 0)
      && (ok ==> Count(r.dailyAttendance, today) <= DailyCap && WeeklyFigure(r, today) <= WeeklyCap)
      && WeeklyFigure(r, today) == WeeklyFigure(rec, today) + (if Weekday(today) < 5 then a else 0)
      && (forall d :: d != today ==> Count(r.dailyAttendance, d) == Count(rec.dailyAttendance, d))
  {
    var d := Count(rec.dailyAttendance, today);
    var w := WeeklyFigure(rec, today);
    var a := GrantAmount(d, w, requested);
    var r := Granted(rec, today, a);
    assert Grant(rec, today, requested) == (r, a > 0);
    GrantedWeeklyFigure(rec, today, a);
    assert r.totalAttendance - rec.totalAttendance == a;
    assert Count(r.dailyAttendance, today) == d + a;
  }

  /** `add_manual_attendance` on an enrolled record: the bonus and the
      total grow by the quantity, and no daily count moves, so the weekly
      figure of every day grows by exactly the quantity. */
  function ManualBonusAdded(rec: AttendanceRecord, quantity: int): (r: AttendanceRecord)
    ensures r.dailyAttendance == rec.dailyAttendance && r.name == rec.name
    ensures r.totalAttendance == rec.totalAttendance + quantity
    ensures forall today :: WeeklyFigure(r, today) == WeeklyFigure(rec, today) + quantity
  {
    rec.(manualWeeklyAttendance := rec.manualWeeklyAttendance + quantity,
         totalAttendance := rec.totalAttendance + quantity)
  }

  /** `add_daily_manual_attendance` on a record enrolled for today: the
      grant is all or nothing, refused when it would take today's count
      above the daily cap. Unlike `add_attendance` it ignores the weekly cap. */
  function DailyManualGrant(rec: AttendanceRecord, today: int, quantity: int): (AttendanceRecord, bool) {
    if Count(rec.dailyAttendance, today) + quantity > DailyCap then (rec, false)
    else (Granted(rec, today, quantity), true)
  }

  /** The daily manual path keeps every count within the daily cap, adds
      the whole quantity to today's count and to the total when it
      succeeds, and changes nothing when it refuses. */
  lemma DailyManualKeepsDailyCap(rec: AttendanceRecord, today: int, quantity: int)
    requires DailyCapped(rec) && 1 <= quantity <= 3
    ensures var (r, ok) := DailyManualGrant(rec, today, quantity);
      && DailyCapped(r)
      && (ok <==> Count(rec.dailyAttendance, today) + quantity <= DailyCap)
      && (ok ==> Count(r.dailyAttendance, today) == Count(rec.dailyAttendance, today) + quantity
                 && r.totalAttendance == rec.totalAttendance + quantity)
      && (!ok ==> r == rec)
  {
  }

  /** A successful grant keeps every daily count of a capped record within
      the daily cap. */
  lemma GrantKeepsDailyCapped(rec: AttendanceRecord, today: int, requested: int)
    requires DailyCapped(rec)
    ensures DailyCapped(Grant(rec, today, requested).0)
  {
  }

  /** Four single grants in one weekday, starting from an empty record:
      the first three succeed, the fourth is refused, and the total is 3. */
  lemma FourGrantsInOneDay(name: string, today: int)
    requires Weekday(today) < 5
    ensures var r0 := AttendanceRecord(name, map[today := 0], 0, 0);
      var (r1, ok1) := Grant(r0, today, 1);
      var (r2, ok2) := Grant(r1, today, 1);
      var (r3, ok3) := Grant(r2, today, 1);
      var (r4, ok4) := Grant(r3, today, 1);
      ok1 && ok2 && ok3 && !ok4 && r4.totalAttendance == 3
  {
    var r0 := AttendanceRecord(name, map[today := 0], 0, 0);
    WindowSumUpdate(map[], WeekStart(today), 5, today, 0);
    WindowSumEmpty(WeekStart(today), 5);
    assert WeeklyFigure(r0, today) == 0;
    AddAttendanceKeepsCaps(r0, today, 1);
    var r1 := Grant(r0, today, 1).0;
    AddAttendanceKeepsCaps(r1, today, 1);
    var r2 := Grant(r1, today, 1).0;
    AddAttendanceKeepsCaps(r2, today, 1);
    var r3 := Grant(r2, today, 1).0;
    AddAttendanceKeepsCaps(r3, today, 1);
  }
}
