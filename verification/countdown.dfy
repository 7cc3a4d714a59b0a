/**
 The countdown shown on a circuit: the time left until the lock time,
 split into days, hours, minutes and seconds, the label chosen from it and
 the "urgent" flag. Both times are milliseconds; `now` replaces `Date.now()`.
 */
module Countdown {
  import opened Text
  import opened Results

  const SECOND_MS: nat := 1000
  const MINUTE_MS: nat := 60 * SECOND_MS
  const HOUR_MS: nat := 60 * MINUTE_MS
  const DAY_MS: nat := 24 * HOUR_MS

  /** Whole days, hours, minutes and seconds of a positive remaining time. */
  datatype Parts = Parts(days: nat, hours: nat, minutes: nat, seconds: nat)

  function PartsMillis(p: Parts): nat {
    p.days * DAY_MS + p.hours * HOUR_MS + p.minutes * MINUTE_MS + p.seconds * SECOND_MS
  }

  /**
   The floor-division decomposition: the parts account for all of `diff`
   except less than a second, and every part below days is below its unit's
   range.
   */
  function Decompose(diff: nat): (p: Parts)
    ensures PartsMillis(p) <= diff < PartsMillis(p) + SECOND_MS
    ensures p.hours < 24 && p.minutes < 60 && p.seconds < 60
  {
    var p := Parts(diff / DAY_MS, (diff % DAY_MS) / HOUR_MS, (diff % HOUR_MS) / MINUTE_MS, (diff % MINUTE_MS) / SECOND_MS);
    DecomposeBounds(diff);
    p
  }

  lemma DecomposeBounds(diff: nat)
    ensures var p := Parts(diff / DAY_MS, (diff % DAY_MS) / HOUR_MS, (diff % HOUR_MS) / MINUTE_MS, (diff % MINUTE_MS) / SECOND_MS);
      && PartsMillis(p) <= diff < PartsMillis(p) + SECOND_MS
      && p.hours < 24 && p.minutes < 60 && p.seconds < 60
  {
    var d := diff / DAY_MS;
    var rd := diff % DAY_MS;
    var h := rd / HOUR_MS;
    var rh := rd % HOUR_MS;
    assert diff % HOUR_MS == rh by { ModOfMultiple(diff, 24, HOUR_MS); }
    var m := rh / MINUTE_MS;
    var rm := rh % MINUTE_MS;
    assert diff % MINUTE_MS == rm by {
      ModOfMultiple(diff, 60, MINUTE_MS);
      ModOfMultiple(diff % HOUR_MS, 1, HOUR_MS);
    }
    var s := rm / SECOND_MS;
    assert diff == d * DAY_MS + rd;
    assert rd == h * HOUR_MS + rh;
    assert rh == m * MINUTE_MS + rm;
    assert rm == s * SECOND_MS + rm % SECOND_MS;
  }

  /** Reducing modulo `k * u` and then modulo `u` is reducing modulo `u`. */
  lemma ModOfMultiple(x: nat, k: nat, u: nat)
    requires k > 0 && u > 0
    ensures (x % (k * u)) % u == x % u
  {
    var q := x / (k * u);
    var r := x % (k * u);
    var r1 := r / u;
    var r2 := r % u;
    assert x == q * (k * u) + r;
    assert r == r1 * u + r2;
    assert x == (q * k + r1) * u + r2;
    DivModUnique(x, q * k + r1, r2, u);
  }

  /** Quotient and remainder are unique. */
  lemma DivModUnique(x: nat, a: nat, b: nat, u: nat)
    requires u > 0 && b < u && x == a * u + b
    ensures x % u == b
  {
    var q := x / u;
    var r := x % u;
    assert x == q * u + r;
    if a > q {
      MulAtLeast(a - q, u);
      assert false;
    } else if a < q {
      MulAtLeast(q - a, u);
      assert false;
    }
  }

  lemma MulAtLeast(d: nat, u: nat)
    requires d >= 1
    ensures d * u >= u
  {
    assert d * u == u + (d - 1) * u;
  }

  /** Which pair of units the label shows. */
  datatype Label = Ended | DaysHours(d: nat, h: nat) | HoursMinutes(h: nat, m: nat) | MinutesSeconds(m: nat, s: nat)

  /** The label and the urgent flag after one tick. */
  datatype Display = Display(shown: Label, urgent: bool)

  /**
   `calculateTimeLeft`: when the lock time has passed the label is "Ended"
   and the urgent flag keeps its previous value; otherwise urgent means less
   than an hour is left, and the label shows the two largest units starting
   from the first non-zero one among days and hours.
   */
  function CalculateTimeLeft(lockTime: int, now: int, urgent: bool): (r: Display)
    ensures lockTime - now <= 0 ==> r == Display(Ended, urgent)
    ensures lockTime - now > 0 ==> (r.urgent <==> lockTime - now < HOUR_MS)
    ensures lockTime - now > 0 ==> r.shown != Ended
    ensures r.shown.DaysHours? ==>
      var diff := lockTime - now;
      && r.shown.d >= 1 && r.shown.h < 24
      && r.shown.d * DAY_MS + r.shown.h * HOUR_MS <= diff < r.shown.d * DAY_MS + (r.shown.h + 1) * HOUR_MS
    ensures r.shown.HoursMinutes? ==>
      var diff := lockTime - now;
      && 1 <= r.shown.h < 24 && r.shown.m < 60
      && r.shown.h * HOUR_MS + r.shown.m * MINUTE_MS <= diff < r.shown.h * HOUR_MS + (r.shown.m + 1) * MINUTE_MS
    ensures r.shown.MinutesSeconds? ==>
      var diff := lockTime - now;
      && r.shown.m < 60 && r.shown.s < 60
      && r.shown.m * MINUTE_MS + r.shown.s * SECOND_MS <= diff < r.shown.m * MINUTE_MS + (r.shown.s + 1) * SECOND_MS
  {
    var diff := lockTime - now;
    if diff <= 0 then Display(Ended, urgent)
    else
      var p := Decompose(diff);
      PartsBounds(p, diff);
      var shown :=
        if p.days > 0 then DaysHours(p.days, p.hours)
        else if p.hours > 0 then HoursMinutes(p.hours, p.minutes)
        else MinutesSeconds(p.minutes, p.seconds);
      Display(shown, diff < HOUR_MS)
  }

  /** Truncating a decomposition after its two leading units leaves less than one of the lower unit. */
  lemma PartsBounds(p: Parts, diff: nat)
    requires PartsMillis(p) <= diff < PartsMillis(p) + SECOND_MS
    requires p.hours < 24 && p.minutes < 60 && p.seconds < 60
    ensures p.days * DAY_MS + p.hours * HOUR_MS <= diff < p.days * DAY_MS + (p.hours + 1) * HOUR_MS
    ensures p.days == 0 ==>
      p.hours * HOUR_MS + p.minutes * MINUTE_MS <= diff < p.hours * HOUR_MS + (p.minutes + 1) * MINUTE_MS
    ensures p.days == 0 && p.hours == 0 ==>
      p.minutes * MINUTE_MS + p.seconds * SECOND_MS <= diff < p.minutes * MINUTE_MS + (p.seconds + 1) * SECOND_MS
  {
    assert p.minutes * 60000 + p.seconds * 1000 + 1000 <= 3600000;
    assert p.seconds * 1000 + 1000 <= 60000;
  }

  /**
   The label's form is decided by the magnitude of the remaining time: a day
   or more shows days and hours, an hour or more hours and minutes, less
   than an hour minutes and seconds, which is exactly when the timer is
   urgent.
   */
  lemma LabelByMagnitude(lockTime: int, now: int, urgent: bool)
    requires lockTime - now > 0
    ensures var r := CalculateTimeLeft(lockTime, now, urgent);
      && (r.shown.DaysHours? <==> lockTime - now >= DAY_MS)
      && (r.shown.HoursMinutes? <==> HOUR_MS <= lockTime - now < DAY_MS)
      && (r.shown.MinutesSeconds? <==> lockTime - now < HOUR_MS)
      && (r.shown.MinutesSeconds? <==> r.urgent)
  {
    var diff := lockTime - now;
    var p := Decompose(diff);
    if p.days == 0 {
      assert diff < DAY_MS;
      if p.hours == 0 {
        assert diff < HOUR_MS;
      } else {
        assert diff >= HOUR_MS;
      }
    } else {
      assert diff >= DAY_MS;
    }
  }

  /** The text of a label, as the template literals render it. */
  function Render(l: Label): string {
    match l
    case Ended => "Ended"
    case DaysHours(d, h) => Pair(d, 'd', h, 'h')
    case HoursMinutes(h, m) => Pair(h, 'h', m, 'm')
    case MinutesSeconds(m, s) => Pair(m, 'm', s, 's')
  }

  /** Two numbers, each followed by its unit letter, separated by a space: `${x}u1 ${y}u2`. */
  function Pair(x: nat, u1: char, y: nat, u2: char): string {
    NatToDecimal(x) + [u1] + " " + NatToDecimal(y) + [u2]
  }

  /** The length of the longest prefix of `s` made of digits. */
  function DigitRun(s: string): (n: nat)
    ensures n <= |s|
    ensures AllDigits(s[..n])
    ensures n < |s| ==> !IsDigit(s[n])
    decreases |s|
  {
    if |s| == 0 || !IsDigit(s[0]) then 0
    else
      var n := 1 + DigitRun(s[1..]);
      assert s[..n] == [s[0]] + s[1..][..n - 1];
      n
  }

  /** The label named by two units, if they form one of the three label shapes. */
  function UnitsLabel(u1: char, x: nat, y: nat, u2: char): Option<Label> {
    if u1 == 'd' && u2 == 'h' then Some(DaysHours(x, y))
    else if u1 == 'h' && u2 == 'm' then Some(HoursMinutes(x, y))
    else if u1 == 'm' && u2 == 's' then Some(MinutesSeconds(x, y))
    else None
  }

  /** Reads a label back from its text: "Ended", or a number, a unit, a space, a number and a unit. */
  function ParseLabel(s: string): Option<Label> {
    if s == "Ended" then Some(Ended)
    else
      var i := DigitRun(s);
      if i == 0 || i + 2 > |s| || s[i + 1] != ' ' then None
      else
        var rest := s[i + 2..];
        var j := DigitRun(rest);
        if j == 0 || j + 1 != |rest| then None
        else UnitsLabel(s[i], DecimalValue(s[..i]), DecimalValue(rest[..j]), rest[j])
  }

  /** A digit string followed by a non-digit: the digit run stops at the non-digit. */
  lemma {:induction false} DigitRunStops(a: string, c: char, rest: string)
    requires AllDigits(a) && !IsDigit(c)
    ensures DigitRun(a + [c] + rest) == |a|
    decreases |a|
  {
    var s := a + [c] + rest;
    if |a| > 0 {
      assert s[1..] == a[1..] + [c] + rest;
      DigitRunStops(a[1..], c, rest);
    } else {
      assert s[0] == c;
    }
  }

  /** Once both digit runs and the separating space are located, parsing reads the two numbers and units there. */
  lemma ParseAt(s: string, i: nat, j: nat)
    requires s != "Ended"
    requires DigitRun(s) == i && 0 < i && i + 2 <= |s| && s[i + 1] == ' '
    requires DigitRun(s[i + 2..]) == j && 0 < j && i + 2 + j + 1 == |s|
    ensures ParseLabel(s) == UnitsLabel(s[i], DecimalValue(s[..i]), DecimalValue(s[i + 2..][..j]), s[i + 2..][j])
  {
  }

  /** Two digit strings with their units parse to the numbers they denote and the units' label. */
  lemma ParseShape(a: string, u1: char, b: string, u2: char)
    requires AllDigits(a) && AllDigits(b) && |a| > 0 && |b| > 0
    requires !IsDigit(u1) && !IsDigit(u2)
    ensures ParseLabel(a + [u1] + " " + b + [u2]) == UnitsLabel(u1, DecimalValue(a), DecimalValue(b), u2)
  {
    var s := a + [u1] + " " + b + [u2];
    var i := |a|;
    var rest := b + [u2];
    assert s == a + [u1] + ([' '] + rest);
    assert s[..i] == a && s[i] == u1 && s[i + 1] == ' ';
    assert s[i + 2..] == rest;
    assert s != "Ended" by { assert s[0] == a[0] && IsDigit(a[0]); }
    DigitRunStops(a, u1, [' '] + rest);
    assert rest == b + [u2] + [];
    DigitRunStops(b, u2, []);
    assert rest[..|b|] == b && rest[|b|] == u2;
    ParseAt(s, i, |b|);
  }

  /** Two numbers with their units parse back to the same numbers and units. */
  lemma ParsePair(x: nat, u1: char, y: nat, u2: char)
    requires !IsDigit(u1) && !IsDigit(u2)
    ensures ParseLabel(Pair(x, u1, y, u2)) == UnitsLabel(u1, x, y, u2)
  {
    DecimalRoundTrip(x);
    DecimalRoundTrip(y);
    ParseShape(NatToDecimal(x), u1, NatToDecimal(y), u2);
  }

  /** The rendered text determines the label: parsing it gives the label back. */
  lemma RenderParses(l: Label)
    ensures ParseLabel(Render(l)) == Some(l)
  {
    match l
    case Ended =>
    case DaysHours(d, h) => ParsePair(d, 'd', h, 'h');
    case HoursMinutes(h, m) => ParsePair(h, 'h', m, 'm');
    case MinutesSeconds(m, sec) => ParsePair(m, 'm', sec, 's');
  }
}
