/**
  `get_uptime`: the time since `bot_start_time`, split into days, hours,
  minutes and seconds and rendered as `"{d}d {h}h {m}m {s}s"`, dropping the
  day part when there are no whole days and the hour part as well when there
  are also no whole hours.

  The elapsed time is given as whole seconds (`delta.days * 86400 +
  delta.seconds`, the floor of the timedelta; microseconds are never shown).
  Python's `timedelta` normalises with floor division by a positive divisor,
  which is what Dafny's `/` and `%` compute, so a negative elapsed time (a
  clock that went backwards) is split the same way: negative days, and
  hours, minutes and seconds of the non-negative remainder.
 */
module Uptime {
  import opened Wrappers

  const SecondsPerDay: int := 86400
  const SecondsPerHour: int := 3600
  const SecondsPerMinute: int := 60

  datatype Uptime = Uptime(days: int, hours: nat, minutes: nat, seconds: nat)

  /** The two `divmod` steps of `get_uptime` after `timedelta` has split off the days. */
  function Decompose(elapsed: int): (u: Uptime)
    ensures u.hours < 24 && u.minutes < 60 && u.seconds < 60
    ensures u.days * 86400 + u.hours * 3600 + u.minutes * 60 + u.seconds == elapsed
    ensures elapsed >= 0 <==> u.days >= 0
  {
    var rest := elapsed % SecondsPerDay;
    Uptime(elapsed / SecondsPerDay, rest / SecondsPerHour, rest % SecondsPerHour / SecondsPerMinute, rest % SecondsPerMinute)
  }

  /** The decomposition is the only one within those bounds. */
  lemma DecomposeUnique(elapsed: int, u: Uptime)
    requires u.hours < 24 && u.minutes < 60 && u.seconds < 60
    requires u.days * 86400 + u.hours * 3600 + u.minutes * 60 + u.seconds == elapsed
    ensures u == Decompose(elapsed)
  {
    var v := Decompose(elapsed);
    var r := u.hours * 3600 + u.minutes * 60 + u.seconds;
    var r' := v.hours * 3600 + v.minutes * 60 + v.seconds;
    assert 0 <= r < 86400 && 0 <= r' < 86400;
    assert (u.days - v.days) * 86400 == r' - r;
    assert u.days == v.days;
    var q := u.minutes * 60 + u.seconds;
    var q' := v.minutes * 60 + v.seconds;
    assert 0 <= q < 3600 && 0 <= q' < 3600;
    assert (u.hours - v.hours) * 3600 == q' - q;
    assert u.hours == v.hours;
    assert (u.minutes - v.minutes) * 60 == v.seconds - u.seconds;
  }

  // ---------------------------------------------------------------- rendering

  /** One displayed component: its value and its unit letter. */
  datatype Part = Part(value: nat, unit: char)

  predicate IsUnit(c: char) {
    c == 'd' || c == 'h' || c == 'm' || c == 's'
  }

  /** The components `get_uptime` prints, in the three output shapes. */
  function Parts(u: Uptime): seq<Part> {
    if u.days > 0 then [Part(u.days, 'd'), Part(u.hours, 'h'), Part(u.minutes, 'm'), Part(u.seconds, 's')]
    else if u.hours > 0 then [Part(u.hours, 'h'), Part(u.minutes, 'm'), Part(u.seconds, 's')]
    else [Part(u.minutes, 'm'), Part(u.seconds, 's')]
  }

  predicate IsDigit(c: char) {
    '0' <= c <= '9'
  }

  function DigitValue(c: char): nat
    requires IsDigit(c)
  {
    c as int - '0' as int
  }

  function DigitChar(d: nat): (c: char)
    requires d < 10
    ensures IsDigit(c) && DigitValue(c) == d
  {
    ('0' as int + d) as char
  }

  predicate AllDigits(s: string) {
    forall i :: 0 <= i < |s| ==> IsDigit(s[i])
  }

  /** Python's `str` of a non-negative integer: its decimal digits, most significant first. */
  function Decimal(n: nat): (s: string)
    ensures |s| > 0 && AllDigits(s)
    ensures s[0] == '0' ==> n == 0
    decreases n
  {
    if n < 10 then [DigitChar(n)] else Decimal(n / 10) + [DigitChar(n % 10)]
  }

  /** The number a string of decimal digits denotes. */
  function DigitsValue(s: string): nat
    requires AllDigits(s)
    decreases |s|
  {
    if s == [] then 0 else DigitsValue(s[..|s| - 1]) * 10 + DigitValue(s[|s| - 1])
  }

  /** Reading the decimal text back gives the number. */
  lemma {:induction false} DecimalReadsBack(n: nat)
    ensures DigitsValue(Decimal(n)) == n
    decreases n
  {
    if n >= 10 {
      DecimalReadsBack(n / 10);
      var s := Decimal(n);
      assert s[..|s| - 1] == Decimal(n / 10);
    }
  }

  function Show(p: Part): string {
    Decimal(p.value) + [p.unit]
  }

  /** The components joined by single spaces, as the f-strings of `get_uptime` write them. */
  function Render(ps: seq<Part>): string
    decreases |ps|
  {
    if ps == [] then "" else if |ps| == 1 then Show(ps[0]) else Show(ps[0]) + " " + Render(ps[1..])
  }

  /** `get_uptime` */
  function GetUptime(elapsed: int): string {
    Render(Parts(Decompose(elapsed)))
  }

  // ---------------------------------------------------------------- reading the text back

  /** Length of the run of digits at the start of `s`. */
  function LeadingDigits(s: string): (k: nat)
    ensures k <= |s| && AllDigits(s[..k])
    ensures k < |s| ==> !IsDigit(s[k])
    decreases |s|
  {
    if s != [] && IsDigit(s[0]) then
      var k := 1 + LeadingDigits(s[1..]);
      assert s[..k] == [s[0]] + s[1..][..k - 1];
      k
    else 0
  }

  /** A number followed by one unit letter, and what follows it. */
  function ParsePart(s: string): (r: Option<(Part, string)>)
    ensures r.Some? ==> |r.value.1| < |s|
  {
    var k := LeadingDigits(s);
    if k == 0 || k == |s| || !IsUnit(s[k]) then None
    else Some((Part(DigitsValue(s[..k]), s[k]), s[k + 1..]))
  }

  /** Components separated by single spaces. */
  function ParseParts(s: string): Option<seq<Part>>
    decreases |s|
  {
    match ParsePart(s)
    case None => None
    case Some((p, rest)) =>
      if rest == [] then Some([p])
      else if rest[0] != ' ' then None
      else match ParseParts(rest[1..])
        case None => None
        case Some(ps) => Some([p] + ps)
  }

  lemma {:induction false} LeadingDigitsOf(ds: string, rest: string)
    requires AllDigits(ds)
    requires rest == [] || !IsDigit(rest[0])
    ensures LeadingDigits(ds + rest) == |ds|
    decreases |ds|
  {
    if ds == [] {
      assert ds + rest == rest;
    } else {
      assert (ds + rest)[1..] == ds[1..] + rest;
      LeadingDigitsOf(ds[1..], rest);
    }
  }

  lemma ParseShow(p: Part, rest: string)
    requires IsUnit(p.unit)
    ensures ParsePart(Show(p) + rest) == Some((p, rest))
  {
    var d := Decimal(p.value);
    var s := Show(p) + rest;
    assert s == d + ([p.unit] + rest);
    LeadingDigitsOf(d, [p.unit] + rest);
    assert s[..|d|] == d;
    assert s[|d| + 1..] == rest;
    DecimalReadsBack(p.value);
  }

  /** The rendering is unambiguous: parsing the text gives back exactly the components shown. */
  lemma {:induction false} RenderReadsBack(ps: seq<Part>)
    requires ps != []
    requires forall i :: 0 <= i < |ps| ==> IsUnit(ps[i].unit)
    ensures ParseParts(Render(ps)) == Some(ps)
    decreases |ps|
  {
    if |ps| == 1 {
      ParseShow(ps[0], []);
      assert Show(ps[0]) + [] == Render(ps);
      assert ps == [ps[0]];
    } else {
      var tail := " " + Render(ps[1..]);
      ParseShow(ps[0], tail);
      assert Show(ps[0]) + tail == Render(ps);
      assert tail[1..] == Render(ps[1..]);
      RenderReadsBack(ps[1..]);
      assert [ps[0]] + ps[1..] == ps;
    }
  }

  /** Seconds denoted by one unit letter. */
  function UnitSeconds(unit: char): int {
    match unit
    case 'd' => SecondsPerDay
    case 'h' => SecondsPerHour
    case 'm' => SecondsPerMinute
    case _ => 1
  }

  /** The seconds a list of components adds up to. */
  function Total(ps: seq<Part>): int
    decreases |ps|
  {
    if ps == [] then 0 else ps[0].value * UnitSeconds(ps[0].unit) + Total(ps[1..])
  }

  /** The unit letters of components, in order. */
  function Units(ps: seq<Part>): string
    decreases |ps|
  {
    if ps == [] then "" else [ps[0].unit] + Units(ps[1..])
  }

  /**
    The three output shapes, as read back from the text: `d h m s` when there
    is at least one whole day, `h m s` when there are no whole days but at
    least one hour, otherwise `m s`; hours are below 24 and minutes and
    seconds below 60.
   */
  lemma UptimeShape(elapsed: int)
    ensures var u := Decompose(elapsed);
      var ps := ParseParts(GetUptime(elapsed));
      && u.hours < 24 && u.minutes < 60 && u.seconds < 60
      && ps.Some?
      && (u.days > 0 ==> ps.value == [Part(u.days, 'd'), Part(u.hours, 'h'), Part(u.minutes, 'm'), Part(u.seconds, 's')])
      && (u.days <= 0 && u.hours > 0 ==> ps.value == [Part(u.hours, 'h'), Part(u.minutes, 'm'), Part(u.seconds, 's')])
      && (u.days <= 0 && u.hours == 0 ==> ps.value == [Part(u.minutes, 'm'), Part(u.seconds, 's')])
      && Units(ps.value) == (if u.days > 0 then "dhms" else if u.hours > 0 then "hms" else "ms")
  {
    var u := Decompose(elapsed);
    RenderReadsBack(Parts(u));
    var ss := [Part(u.seconds, 's')];
    assert Units(ss) == "s" by { assert ss[1..] == []; }
    var ms := [Part(u.minutes, 'm')] + ss;
    assert Units(ms) == "ms" by { assert ms[1..] == ss; }
    var hms := [Part(u.hours, 'h')] + ms;
    assert Units(hms) == "hms" by { assert hms[1..] == ms; }
    if u.days > 0 {
      var dhms := [Part(u.days, 'd')] + hms;
      assert Units(dhms) == "dhms" by { assert dhms[1..] == hms; }
      assert Parts(u) == dhms;
    } else if u.hours > 0 {
      assert Parts(u) == hms;
    } else {
      assert Parts(u) == ms;
    }
  }

  /** The seconds the printed components add up to: everything but the days when no whole day is printed. */
  lemma TotalOfParts(u: Uptime)
    ensures Total(Parts(u)) == (if u.days > 0 then u.days * 86400 else 0) + u.hours * 3600 + u.minutes * 60 + u.seconds
  {
    var ss := [Part(u.seconds, 's')];
    assert Total(ss) == u.seconds by { assert ss[1..] == []; }
    var ms := [Part(u.minutes, 'm')] + ss;
    assert Total(ms) == u.minutes * 60 + u.seconds by { assert ms[1..] == ss; }
    var hms := [Part(u.hours, 'h')] + ms;
    assert Total(hms) == u.hours * 3600 + Total(ms) by { assert hms[1..] == ms; }
    if u.days > 0 {
      var dhms := [Part(u.days, 'd')] + hms;
      assert Total(dhms) == u.days * 86400 + Total(hms) by { assert dhms[1..] == hms; }
      assert Parts(u) == dhms;
    } else if u.hours > 0 {
      assert Parts(u) == hms;
    } else {
      assert Parts(u) == ms;
    }
  }

  /**
    Reading the uptime text back recovers the elapsed time: for a
    non-negative duration the printed parts add up to it exactly (the parts
    left out are zero); for a negative one, whose days are never printed, the
    text shows the time of day it wraps to.
   */
  lemma UptimeReadsBack(elapsed: int)
    ensures ParseParts(GetUptime(elapsed)).Some?
    ensures elapsed >= 0 ==> Total(ParseParts(GetUptime(elapsed)).value) == elapsed
    ensures elapsed < 0 ==> Total(ParseParts(GetUptime(elapsed)).value) == elapsed % 86400
  {
    var u := Decompose(elapsed);
    RenderReadsBack(Parts(u));
    TotalOfParts(u);
  }
}
