/**
 * Instants, durations and the age text every store shows.
 *
 * Instants and durations are integers counting nanoseconds, like Go's
 * time.Duration. RFC3339 formatting is a library call; it enters the model
 * as a parameter of type Formatter. formatAge is the same function in five
 * Go files (deploy, namespace, node, pod and service); it is defined once here.
 */
module Clock {
  import opened Wrappers
  import opened Text

  type Instant = int
  type Duration = int

  /** time.Time.Format(time.RFC3339), left uninterpreted. */
  type Formatter = Instant -> string

  const Second: int := 1_000_000_000
  const Minute: int := 60_000_000_000
  const Hour: int := 3_600_000_000_000
  const Day: int := 86_400_000_000_000

  /** The four shapes an age or relative time is written in. */
  datatype AgeText =
    | DaysHours(days: nat, hours: nat)            // "{d}d{h}h"
    | HoursMinutes(hours: nat, minutes: nat)      // "{h}h{m}m"
    | MinutesSeconds(minutes: nat, seconds: nat)  // "{m}m{s}s"
    | MinutesOnly(minutes: nat)                   // "{m}m"

  function Render(t: AgeText): string {
    match t
    case DaysHours(d, h) => NatToString(d) + "d" + NatToString(h) + "h"
    case HoursMinutes(h, m) => NatToString(h) + "h" + NatToString(m) + "m"
    case MinutesSeconds(m, s) => NatToString(m) + "m" + NatToString(s) + "s"
    case MinutesOnly(m) => NatToString(m) + "m"
  }

  /** Reads an age back: a number, a unit letter, and optionally a second number and unit. */
  function ParseAge(s: string): Option<AgeText> {
    var k := DigitPrefixLen(s);
    if k == 0 || k == |s| then None
    else
      var a := DigitsValue(s[..k]);
      var unit := s[k];
      var rest := s[k + 1..];
      if unit == 'm' && rest == [] then Some(MinutesOnly(a))
      else
        var k2 := DigitPrefixLen(rest);
        if k2 == 0 || k2 + 1 != |rest| then None
        else
          var b := DigitsValue(rest[..k2]);
          var unit2 := rest[k2];
          if unit == 'd' && unit2 == 'h' then Some(DaysHours(a, b))
          else if unit == 'h' && unit2 == 'm' then Some(HoursMinutes(a, b))
          else if unit == 'm' && unit2 == 's' then Some(MinutesSeconds(a, b))
          else None
  }

  /** Splits "{a}{u}" + tail at the unit letter. */
  lemma ParseHead(a: nat, u: char, tail: string)
    requires !IsDigit(u)
    ensures var s := NatToString(a) + [u] + tail;
            var k := DigitPrefixLen(s);
            k == |NatToString(a)| && k < |s| && s[..k] == NatToString(a)
            && DigitsValue(s[..k]) == a && s[k] == u && s[k + 1..] == tail
  {
    var d := NatToString(a);
    var s := d + [u] + tail;
    assert s == d + ([u] + tail);
    DigitPrefixLenOf(d, [u] + tail);
    assert s[..|d|] == d;
    NatToStringRoundTrip(a);
    assert s[|d| + 1..] == tail;
  }

  /** "{a}{u}{b}{u2}" is read as the pair (a, b) tagged by its two unit letters. */
  lemma ParsePair(a: nat, u: char, b: nat, u2: char)
    requires !IsDigit(u) && !IsDigit(u2)
    ensures ParseAge(NatToString(a) + [u] + NatToString(b) + [u2]) ==
      if u == 'd' && u2 == 'h' then Some(DaysHours(a, b))
      else if u == 'h' && u2 == 'm' then Some(HoursMinutes(a, b))
      else if u == 'm' && u2 == 's' then Some(MinutesSeconds(a, b))
      else None
  {
    var tail := NatToString(b) + [u2];
    assert NatToString(a) + [u] + NatToString(b) + [u2] == NatToString(a) + [u] + tail;
    ParseHead(a, u, tail);
    ParseHead(b, u2, []);
    assert tail == NatToString(b) + [u2] + [];
  }

  /** The rendered text is unambiguous: parsing it gives back what was rendered. */
  lemma ParseRender(t: AgeText)
    ensures ParseAge(Render(t)) == Some(t)
  {
    match t
    case DaysHours(d, h) =>
      ParsePair(d, 'd', h, 'h');
      assert Render(t) == NatToString(d) + ['d'] + NatToString(h) + ['h'];
    case HoursMinutes(h, m) =>
      ParsePair(h, 'h', m, 'm');
      assert Render(t) == NatToString(h) + ['h'] + NatToString(m) + ['m'];
    case MinutesSeconds(m, s) =>
      ParsePair(m, 'm', s, 's');
      assert Render(t) == NatToString(m) + ['m'] + NatToString(s) + ['s'];
    case MinutesOnly(m) =>
      ParseHead(m, 'm', []);
      assert Render(t) == NatToString(m) + ['m'] + [];
  }

  /** Two ages that render the same were split into the same parts. */
  lemma RenderInjective(t1: AgeText, t2: AgeText)
    requires Render(t1) == Render(t2)
    ensures t1 == t2
  {
    ParseRender(t1);
    ParseRender(t2);
  }

  // ---------------------------------------------------------------------------
  // formatAge
  // ---------------------------------------------------------------------------

  /** The four components formatAge computes, in the order it computes them. */
  datatype AgeParts = AgeParts(days: nat, hours: nat, minutes: nat, seconds: nat)

  function Compose(p: AgeParts): int {
    p.days * Day + p.hours * Hour + p.minutes * Minute + p.seconds * Second
  }

  /**
   * The arithmetic of formatAge: clamp a negative duration to zero, then take
   * whole days, the hours left, the minutes left and the seconds left.
   */
  function Split(d: Duration): (p: AgeParts)
    ensures p.hours < 24 && p.minutes < 60 && p.seconds < 60
    ensures d < 0 ==> p == AgeParts(0, 0, 0, 0)
    ensures d >= 0 ==> Compose(p) <= d < Compose(p) + Second
  {
    var c := if d < 0 then 0 else d;
    var days := c / Day;
    var c1 := c - days * Day;
    var hours := c1 / Hour;
    var c2 := c1 - hours * Hour;
    var minutes := c2 / Minute;
    var secs := (c2 / Second) % 60;
    assert 0 <= c1 < Day;
    assert 0 <= c2 < Hour;
    AgeParts(days, hours, minutes, secs)
  }

  /** The switch at the end of formatAge: the largest two units, days first. */
  function AgeTextOf(d: Duration): (t: AgeText)
    ensures var c := if d < 0 then 0 else d;
            && (c >= Day ==> t == DaysHours(c / Day, c % Day / Hour))
            && (Hour <= c < Day ==> t == HoursMinutes(c / Hour, c % Hour / Minute))
            && (c < Hour ==> t == MinutesSeconds(c / Minute, c % Minute / Second))
  {
    var p := Split(d);
    if p.days > 0 then DaysHours(p.days, p.hours)
    else if p.hours > 0 then HoursMinutes(p.hours, p.minutes)
    else MinutesSeconds(p.minutes, p.seconds)
  }

  /** formatAge: "{d}d{h}h", "{h}h{m}m" or "{m}m{s}s", so never empty: at least a number and a unit letter. */
  function FormatAge(d: Duration): (r: string)
    ensures |r| >= 2
  {
    Render(AgeTextOf(d))
  }

  /** The displayed components are in range: hours < 24, minutes < 60, seconds < 60. */
  lemma FormatAgeBounds(d: Duration)
    ensures ParseAge(FormatAge(d)).Some?
    ensures match ParseAge(FormatAge(d)).value
            case DaysHours(days, h) => days >= 1 && h < 24
            case HoursMinutes(h, m) => 1 <= h < 24 && m < 60
            case MinutesSeconds(m, s) => m < 60 && s < 60
            case MinutesOnly(_) => false
  {
    ParseRender(AgeTextOf(d));
  }

  /** Clock skew: a negative duration reads like zero, "0m0s". */
  lemma FormatAgeNegative(d: Duration)
    requires d < 0
    ensures FormatAge(d) == FormatAge(0) == "0m0s"
  {
  }

  /** An age of exactly 36 hours is "1d12h". */
  lemma FormatAgeThirtySixHours()
    ensures FormatAge(36 * Hour) == "1d12h"
  {
    assert AgeTextOf(36 * Hour) == DaysHours(1, 12);
    assert NatToString(12) == NatToString(1) + [DigitChar(2)];
  }

  /** Lexicographic order on the components. */
  predicate PartsLe(p: AgeParts, q: AgeParts) {
    p.days < q.days
    || (p.days == q.days && p.hours < q.hours)
    || (p.days == q.days && p.hours == q.hours && p.minutes < q.minutes)
    || (p.days == q.days && p.hours == q.hours && p.minutes == q.minutes && p.seconds <= q.seconds)
  }

  /** Ages never run backwards: a later reference instant never shows a smaller age. */
  lemma SplitMonotone(d1: Duration, d2: Duration)
    requires d1 <= d2
    ensures PartsLe(Split(d1), Split(d2))
  {
    var p, q := Split(d1), Split(d2);
    if !PartsLe(p, q) {
      ComposeLexicographic(q, p);
      assert false;
    }
  }

  /** With bounded hours, minutes and seconds, a lexicographically smaller split composes to less. */
  lemma ComposeLexicographic(p: AgeParts, q: AgeParts)
    requires p.hours < 24 && p.minutes < 60 && p.seconds < 60
    requires q.hours < 24 && q.minutes < 60 && q.seconds < 60
    requires !PartsLe(q, p)
    ensures Compose(p) + Second <= Compose(q)
  {
    if p.days < q.days {
      assert p.hours * Hour + p.minutes * Minute + p.seconds * Second < Day;
      assert p.days * Day + Day <= q.days * Day;
    } else if p.hours < q.hours {
      assert p.minutes * Minute + p.seconds * Second < Hour;
      assert p.hours * Hour + Hour <= q.hours * Hour;
    } else if p.minutes < q.minutes {
      assert p.seconds * Second < Minute;
      assert p.minutes * Minute + Minute <= q.minutes * Minute;
    }
  }
}
