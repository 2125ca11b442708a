/**
 * formatTime (packages/service/utils/actions.ts): a number of seconds
 * rendered as `{h}h {m}m {s}s`, with JavaScript's `Math.floor` and `%`
 * (the remainder takes the sign of the dividend).
 */
module Actions {

  import opened Wrappers
  import opened Strings

  /** JavaScript `a % b` for a positive divisor: truncated, not Euclidean. */
  function JsRem(a: int, b: int): (r: int)
    requires b > 0
    ensures a >= 0 ==> r == a % b
    ensures -b < r < b
  {
    if a >= 0 then a % b else -((-a) % b)
  }

  datatype TimeParts = TimeParts(hours: int, minutes: int, seconds: int)

  /** The three `Math.floor` expressions; `Math.floor(a / b)` is Dafny's `a / b` for `b > 0`. */
  function Parts(seconds: int): TimeParts {
    TimeParts(seconds / 3600, JsRem(seconds, 3600) / 60, JsRem(seconds, 60))
  }

  function FormatTime(seconds: int): (r: string) {
    var p := Parts(seconds);
    IntToString(p.hours) + "h " + IntToString(p.minutes) + "m " + IntToString(p.seconds) + "s"
  }

  /** For whole non-negative seconds the parts add back up, and minutes and seconds stay below 60. */
  lemma PartsRoundTrip(n: nat)
    ensures Parts(n).hours * 3600 + Parts(n).minutes * 60 + Parts(n).seconds == n
    ensures 0 <= Parts(n).minutes < 60 && 0 <= Parts(n).seconds < 60
    ensures Parts(n).hours >= 0
  {
    var h, r := n / 3600, n % 3600;
    assert n == h * 3600 + r;
    var m, s := r / 60, r % 60;
    assert r == m * 60 + s;
    assert n == h * 3600 + m * 60 + s;
    assert n % 60 == s by {
      assert n == (h * 60 + m) * 60 + s;
    }
  }

  /** The hour count never decreases as uptime grows. */
  lemma HoursMonotone(a: nat, b: nat)
    requires a <= b
    ensures Parts(a).hours <= Parts(b).hours
  {
  }

  lemma FormatZero()
    ensures FormatTime(0) == "0h 0m 0s"
  {
  }

  /** Reads a run of digits followed by `unit`; yields the value and what follows the unit. */
  function ReadField(s: string, unit: string): Option<(nat, string)> {
    var d := DigitPrefix(s);
    var rest := s[|d|..];
    if d == [] || !StartsWith(rest, unit) then None
    else Some((DigitsValue(d), rest[|unit|..]))
  }

  function TotalSeconds(h: nat, m: nat, s: nat): nat { h * 3600 + m * 60 + s }

  /** Reads back a `{h}h {m}m {s}s` rendering of whole numbers. */
  function ParseFormatted(s: string): Option<nat> {
    match ReadField(s, "h ")
    case None => None
    case Some((h, s1)) =>
      match ReadField(s1, "m ")
      case None => None
      case Some((m, s2)) =>
        match ReadField(s2, "s")
        case None => None
        case Some((sec, s3)) => if s3 == "" then Some(TotalSeconds(h, m, sec)) else None
  }

  lemma {:induction false} DigitPrefixStops(d: string, rest: string)
    requires AllDigits(d)
    requires rest == [] || !IsDigit(rest[0])
    ensures DigitPrefix(d + rest) == d
  {
    if d == [] {
      assert d + rest == rest;
    } else {
      assert (d + rest)[1..] == d[1..] + rest;
      DigitPrefixStops(d[1..], rest);
    }
  }

  lemma ReadDigits(d: string, unit: string, rest: string)
    requires d != [] && AllDigits(d)
    requires unit != [] && !IsDigit(unit[0])
    ensures ReadField(d + (unit + rest), unit) == Some((DigitsValue(d), rest))
  {
    var s := d + (unit + rest);
    DigitPrefixStops(d, unit + rest);
    assert s[|d|..] == unit + rest;
    assert (unit + rest)[|unit|..] == rest;
  }

  lemma ParseRendered(hs: string, ms: string, ss: string)
    requires hs != [] && AllDigits(hs)
    requires ms != [] && AllDigits(ms)
    requires ss != [] && AllDigits(ss)
    ensures ParseFormatted(hs + "h " + ms + "m " + ss + "s")
         == Some(TotalSeconds(DigitsValue(hs), DigitsValue(ms), DigitsValue(ss)))
  {
    var tail2 := ss + ("s" + "");
    var tail1 := ms + ("m " + tail2);
    assert hs + "h " + ms + "m " + ss + "s" == hs + ("h " + tail1);
    ReadDigits(hs, "h ", tail1);
    ReadDigits(ms, "m ", tail2);
    ReadDigits(ss, "s", "");
  }

  /** The rendered uptime determines the number of seconds it came from. */
  lemma FormatTimeRoundTrip(n: nat)
    ensures ParseFormatted(FormatTime(n)) == Some(n)
  {
    PartsRoundTrip(n);
    var p := Parts(n);
    var h, m, sec: nat := p.hours, p.minutes, p.seconds;
    assert TotalSeconds(h, m, sec) == n;
    var hs, ms, ss := NatToString(h), NatToString(m), NatToString(sec);
    assert FormatTime(n) == hs + "h " + ms + "m " + ss + "s";
    NatToStringRoundTrip(h);
    NatToStringRoundTrip(m);
    NatToStringRoundTrip(sec);
    ParseRendered(hs, ms, ss);
  }

  lemma FormatTimeInjective(a: nat, b: nat)
    requires FormatTime(a) == FormatTime(b)
    ensures a == b
  {
    FormatTimeRoundTrip(a);
    FormatTimeRoundTrip(b);
  }
}
