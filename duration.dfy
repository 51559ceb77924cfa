/** `format_time_human`: a duration in seconds rendered as Spanish parts
    such as "2 Horas, 1 Minuto, 5 Segundos". Hours and minutes that are
    zero are left out; the seconds part is shown when it is non-zero or
    when it would otherwise be the only part.
 */
module Duration {

  datatype Unit = Hora | Minuto | Segundo

  /** One part of the rendering: a count and its unit. */
  datatype Part = Part(value: nat, unit: Unit)

  function UnitSeconds(u: Unit): nat {
    match u
    case Hora => 3600
    case Minuto => 60
    case Segundo => 1
  }

  function UnitName(u: Unit): string {
    match u
    case Hora => "Hora"
    case Minuto => "Minuto"
    case Segundo => "Segundo"
  }

  predicate IsDigit(c: char) {
    '0' <= c <= '9'
  }

  function DigitChar(d: nat): (c: char)
    requires d < 10
    ensures IsDigit(c)
  {
    ('0' as int + d) as char
  }

  /** Python's `str(n)` for a non-negative integer. */
  function NatToString(n: nat): (s: string)
    ensures |s| >= 1 && forall i :: 0 <= i < |s| ==> IsDigit(s[i])
    decreases n
  {
    if n < 10 then [DigitChar(n)] else NatToString(n / 10) + [DigitChar(n % 10)]
  }

  /** The value of a string of decimal digits. */
  function DigitsValue(s: string): nat
    requires forall i :: 0 <= i < |s| ==> IsDigit(s[i])
    decreases |s|
  {
    if s == [] then 0
    else
      assert IsDigit(s[|s| - 1]);
      10 * DigitsValue(s[..|s| - 1]) + (s[|s| - 1] as int - '0' as int)
  }

  /** The decimal rendering of a count reads back as that count. */
  lemma {:induction false} NatToStringRoundTrip(n: nat)
    ensures DigitsValue(NatToString(n)) == n
    decreases n
  {
    if n >= 10 {
      NatToStringRoundTrip(n / 10);
      var s := NatToString(n);
      assert s[..|s| - 1] == NatToString(n / 10);
    }
  }

  /** One part: the count, a space, the unit, and a plural "s" unless the
      count is exactly 1. */
  function Render(p: Part): string {
    NatToString(p.value) + " " + UnitName(p.unit) + (if p.value != 1 then "s" else "")
  }

  /** `", ".join(...)` of the rendered parts. */
  function Join(xs: seq<string>): string
    decreases |xs|
  {
    if xs == [] then "" else if |xs| == 1 then xs[0] else xs[0] + ", " + Join(xs[1..])
  }

  function RenderAll(parts: seq<Part>): (r: seq<string>)
    ensures |r| == |parts| && forall i :: 0 <= i < |parts| ==> r[i] == Render(parts[i])
  {
    seq(|parts|, i requires 0 <= i < |parts| => Render(parts[i]))
  }

  /** The parts `format_time_human` builds, in order. A negative duration
      is shown as zero seconds. */
  function Parts(seconds: int): seq<Part> {
    if seconds < 0 then [Part(0, Segundo)]
    else
      var hours := seconds / 3600;
      var minutes := seconds % 3600 / 60;
      var secs := seconds % 60;
      var hs := if hours > 0 then [Part(hours, Hora)] else [];
      var ms := if minutes > 0 then [Part(minutes, Minuto)] else [];
      var ss := if secs > 0 || hs + ms == [] then [Part(secs, Segundo)] else [];
      hs + ms + ss
  }

  function FormatTimeHuman(seconds: int): (r: string)
    ensures seconds < 0 ==> r == "0 Segundos"
    ensures |r| > 0 && IsDigit(r[0])
  {
    var parts := Parts(seconds);
    assert |parts| > 0;
    assert RenderAll(parts)[0] == Render(parts[0]);
    Join(RenderAll(parts))
  }

  /** The seconds a list of parts stands for. */
  function Total(parts: seq<Part>): nat
    decreases |parts|
  {
    if parts == [] then 0 else parts[0].value * UnitSeconds(parts[0].unit) + Total(parts[1..])
  }

  lemma {:induction false} TotalAppend(a: seq<Part>, b: seq<Part>)
    ensures Total(a + b) == Total(a) + Total(b)
    decreases |a|
  {
    if a != [] {
      assert (a + b)[0] == a[0] && (a + b)[1..] == a[1..] + b;
      assert Total(a + b) == a[0].value * UnitSeconds(a[0].unit) + Total(a[1..] + b);
      TotalAppend(a[1..], b);
    } else {
      assert a + b == b;
    }
  }

  /** The shape of the rendering: one to three parts, units in decreasing
      size with none repeated, minutes and seconds below 60, no zero part
      except a lone "0 Segundos", and the parts add back up to the input
      (to zero for a negative input). */
  lemma PartsDescribeDuration(seconds: int)
    ensures var p := Parts(seconds);
      && 1 <= |p| <= 3
      && (forall i, j :: 0 <= i < j < |p| ==> UnitSeconds(p[i].unit) > UnitSeconds(p[j].unit))
      && (forall i :: 0 <= i < |p| && p[i].unit != Hora ==> p[i].value < 60)
      && (forall i :: 0 <= i < |p| && p[i].value == 0 ==> p == [Part(0, Segundo)])
      && Total(p) == (if seconds < 0 then 0 else seconds)
  {
    var p := Parts(seconds);
    if seconds >= 0 {
      var hours := seconds / 3600;
      var minutes := seconds % 3600 / 60;
      var secs := seconds % 60;
      var hs := if hours > 0 then [Part(hours, Hora)] else [];
      var ms := if minutes > 0 then [Part(minutes, Minuto)] else [];
      var ss := if secs > 0 || hs + ms == [] then [Part(secs, Segundo)] else [];
      assert p == hs + ms + ss;
      TotalAppend(hs + ms, ss);
      TotalAppend(hs, ms);
      assert Total(hs) == hours * 3600;
      assert Total(ms) == minutes * 60;
      assert Total(ss) == secs;
      assert seconds == hours * 3600 + minutes * 60 + secs;
    }
  }

  /** A whole number of hours renders as that many hours alone. */
  lemma WholeHours(h: nat)
    requires h > 0
    ensures Parts(h * 3600) == [Part(h, Hora)]
  {
    assert h * 3600 / 3600 == h;
    assert h * 3600 % 3600 == 0;
    assert h * 3600 % 60 == 0;
  }
}
