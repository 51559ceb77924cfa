/** The credit rules of the bot: credits for accumulated tracked time by
    tier, and the per-session credits of the no-tier system. Seconds and
    minutes are integers here; the bot divides floats, which for integer
    inputs gives the same thresholds and the same truncated values.
 */
module Credits {
  import opened Tiers

  /** Credits per completed hour for each tier; the five attendance tiers
      earn nothing for time. */
  function HourlyRate(t: Tier): (c: nat)
    ensures HasAttendanceRole(t) <==> c == 0
  {
    match t
    case Gold => 6
    case Medios => 5
    case Normal => 4
    case _ => 0
  }

  /** `calculate_credits`: a step function of the tracked time, with steps
      at one hour and two hours and nothing beyond two hours. */
  function CalculateCredits(totalSeconds: int, t: Tier): (r: nat)
    ensures totalSeconds < 0 ==> r == 0
    ensures totalSeconds >= 0 ==>
      r == HourlyRate(t) * (if totalSeconds / 3600 >= 2 then 2 else totalSeconds / 3600)
  {
    if totalSeconds < 0 then 0
    else if HasAttendanceRole(t) then 0
    else if t == Gold then
      (if totalSeconds >= 7200 then 12 else if totalSeconds >= 3600 then 6 else 0)
    else if t == Medios then
      (if totalSeconds >= 7200 then 10 else if totalSeconds >= 3600 then 5 else 0)
    else
      (if totalSeconds >= 7200 then 8 else if totalSeconds >= 3600 then 4 else 0)
  }

  /** For a fixed tier, more tracked time never earns fewer credits. */
  lemma CreditsMonotone(s1: int, s2: int, t: Tier)
    requires s1 <= s2
    ensures CalculateCredits(s1, t) <= CalculateCredits(s2, t)
  {
    if s1 >= 0 {
      assert s1 / 3600 <= s2 / 3600;
    }
  }

  /** A tier earns credits for time exactly when it is not one of the
      attendance tiers; such a tier earns at most twice its hourly rate. */
  lemma CreditsOnlyBelowAttendanceTiers(t: Tier)
    ensures HasAttendanceRole(t) <==> forall s :: CalculateCredits(s, t) == 0
    ensures forall s :: CalculateCredits(s, t) <= 2 * HourlyRate(t)
  {
    if !HasAttendanceRole(t) {
      assert CalculateCredits(3600, t) == HourlyRate(t) > 0;
    }
  }

  /** `calculate_credits_from_time`: the session time is capped at 60
      minutes, three credits are paid per full hour in proportion with the
      fraction truncated, and any positive time earns at least one credit. */
  function CalculateCreditsFromTime(minutes: int): (r: nat)
    ensures minutes <= 0 ==> r == 0
    ensures minutes > 0 ==> 1 <= r <= 3
    ensures minutes >= 60 ==> r == 3
    ensures minutes > 0 ==> r == (if minutes >= 60 then 3 else if minutes >= 40 then 2 else 1)
  {
    var effective := if minutes < 60 then minutes else 60;
    if effective > 0 then
      var credits := effective * 3 / 60;
      if credits < 1 then 1 else credits
    else 0
  }

  /** More minutes never earn fewer session credits. */
  lemma CreditsFromTimeMonotone(m1: int, m2: int)
    requires m1 <= m2
    ensures CalculateCreditsFromTime(m1) <= CalculateCreditsFromTime(m2)
  {
    var e1 := if m1 < 60 then m1 else 60;
    var e2 := if m2 < 60 then m2 else 60;
    if e1 > 0 {
      assert e1 * 3 / 60 <= e2 * 3 / 60;
    }
  }
}
