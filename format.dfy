/** `formatTime` of src/utils/format.ts: a whole number of seconds rendered as
    "Hh Mm", "Mm Ss" or "Ss", together with a reader for those three shapes
    that shows what the rendered numbers mean. */
module Format {
  import opened Wrappers

  predicate IsDigit(c: char) { '0' <= c <= '9' }

  predicate AllDigits(s: string) { forall i :: 0 <= i < |s| ==> IsDigit(s[i]) }

  function DigitChar(d: nat): (c: char)
    requires d < 10
    ensures IsDigit(c) && c as int - '0' as int == d
  {
    "0123456789"[d]
  }

  /** The decimal numeral of `n`: digits only, no leading zero. This is how
      JavaScript interpolates a non-negative integer below 10^21 that a
      double holds exactly. */
  function NatToString(n: nat): (s: string)
    ensures |s| >= 1 && AllDigits(s)
    ensures |s| > 1 ==> s[0] != '0'
    decreases n
  {
    if n < 10 then [DigitChar(n)] else NatToString(n / 10) + [DigitChar(n % 10)]
  }

  /** The numeral of any integer: a minus sign before a negative one. */
  function IntToString(i: int): string
  {
    if i < 0 then "-" + NatToString(-i) else NatToString(i)
  }

  /** The value of a string of decimal digits. */
  function DigitsValue(s: string): nat
    requires AllDigits(s)
  {
    if s == [] then 0
    else DigitsValue(s[..|s| - 1]) * 10 + (s[|s| - 1] as int - '0' as int)
  }

  lemma {:induction false} DigitsValueOfNatToString(n: nat)
    ensures DigitsValue(NatToString(n)) == n
    decreases n
  {
    if n >= 10 {
      DigitsValueOfNatToString(n / 10);
      var s := NatToString(n);
      assert s[..|s| - 1] == NatToString(n / 10);
    }
  }

  /** The number of decimal digits at the front of `s`. */
  function LeadingDigits(s: string): (k: nat)
    ensures k <= |s| && AllDigits(s[..k])
    ensures k < |s| ==> !IsDigit(s[k])
  {
    if s == [] || !IsDigit(s[0]) then 0
    else
      var k := 1 + LeadingDigits(s[1..]);
      assert s[..k] == [s[0]] + s[1..][..k - 1];
      k
  }

  lemma {:induction false} LeadingDigitsOfNumeral(ds: string, rest: string)
    requires AllDigits(ds)
    requires rest == [] || !IsDigit(rest[0])
    ensures LeadingDigits(ds + rest) == |ds|
  {
    if ds != [] {
      assert (ds + rest)[1..] == ds[1..] + rest;
      LeadingDigitsOfNumeral(ds[1..], rest);
    }
  }

  /** Reads the number at the front of `s`, if it starts with a digit, and
      returns it with what follows. */
  function ReadNat(s: string): Option<(nat, string)>
  {
    var k := LeadingDigits(s);
    if k == 0 then None else Some((DigitsValue(s[..k]), s[k..]))
  }

  lemma ReadNatOfNumeral(n: nat, rest: string)
    requires rest == [] || !IsDigit(rest[0])
    ensures ReadNat(NatToString(n) + rest) == Some((n, rest))
  {
    var ds := NatToString(n);
    LeadingDigitsOfNumeral(ds, rest);
    assert (ds + rest)[..|ds|] == ds;
    assert (ds + rest)[|ds|..] == rest;
    DigitsValueOfNatToString(n);
  }

  /** The three shapes `formatTime` produces, as the numbers they show. */
  datatype Duration =
    | HoursMinutes(hours: nat, minutes: nat)
    | MinutesSeconds(minutes: nat, seconds: nat)
    | Seconds(total: int)

  /** Reads "Hh Mm", "Mm Ss", "Ss" or "-Ss" back into the numbers shown. */
  function ParseTime(t: string): Option<Duration>
  {
    if |t| > 0 && t[0] == '-' then
      match ReadNat(t[1..])
      case Some((n, rest)) => if rest == "s" && n > 0 then Some(Seconds(-(n as int))) else None
      case None => None
    else
      match ReadNat(t)
      case None => None
      case Some((a, rest)) =>
        if rest == "s" then Some(Seconds(a))
        else if |rest| >= 2 && rest[..2] == "m " then
          match ReadNat(rest[2..])
          case Some((b, tail)) => if tail == "s" then Some(MinutesSeconds(a, b)) else None
          case None => None
        else if |rest| >= 2 && rest[..2] == "h " then
          match ReadNat(rest[2..])
          case Some((b, tail)) => if tail == "m" then Some(HoursMinutes(a, b)) else None
          case None => None
        else None
  }

  /** `formatTime(seconds)` for an integer number of seconds. JavaScript's
      `%` and `Math.floor(x / n)` agree with Dafny's `%` and `/` here,
      because both branches that use them have a positive `seconds`. */
  function FormatTime(seconds: int): string
  {
    if seconds >= 3600 then
      NatToString(seconds / 3600) + "h " + NatToString((seconds % 3600) / 60) + "m"
    else if seconds >= 60 then
      NatToString(seconds / 60) + "m " + NatToString(seconds % 60) + "s"
    else
      IntToString(seconds) + "s"
  }

  lemma ParseHoursMinutes(h: nat, m: nat)
    ensures ParseTime(NatToString(h) + "h " + NatToString(m) + "m") == Some(HoursMinutes(h, m))
  {
    var tail := "h " + NatToString(m) + "m";
    ReadNatOfNumeral(m, "m");
    ReadNatOfNumeral(h, tail);
    assert NatToString(h) + "h " + NatToString(m) + "m" == NatToString(h) + tail;
    assert tail[..2] == "h " && tail[2..] == NatToString(m) + "m";
  }

  lemma ParseMinutesSeconds(m: nat, r: nat)
    ensures ParseTime(NatToString(m) + "m " + NatToString(r) + "s") == Some(MinutesSeconds(m, r))
  {
    var tail := "m " + NatToString(r) + "s";
    ReadNatOfNumeral(r, "s");
    ReadNatOfNumeral(m, tail);
    assert NatToString(m) + "m " + NatToString(r) + "s" == NatToString(m) + tail;
    assert tail[..2] == "m " && tail[2..] == NatToString(r) + "s";
  }

  lemma ParseSeconds(s: int)
    ensures ParseTime(IntToString(s) + "s") == Some(Seconds(s))
  {
    var t := IntToString(s) + "s";
    if s >= 0 {
      ReadNatOfNumeral(s, "s");
      assert t == NatToString(s) + "s";
      assert IsDigit(t[0]);
    } else {
      ReadNatOfNumeral(-s, "s");
      assert t == "-" + (NatToString(-s) + "s");
      assert t[0] == '-' && t[1..] == NatToString(-s) + "s";
      assert ReadNat(t[1..]) == Some((-s, "s"));
    }
  }

  /** What the text of `FormatTime(s)` says: under a minute, the seconds
      themselves; under an hour, whole minutes and the remaining seconds,
      which add back up to `s`; from an hour on, whole hours and the minutes
      of the hour begun, the seconds being dropped. */
  lemma FormatTimeMeaning(s: int)
    ensures ParseTime(FormatTime(s)).Some?
    ensures var d := ParseTime(FormatTime(s)).value;
      && (s < 60 ==> d == Seconds(s))
      && (60 <= s < 3600 ==>
            d.MinutesSeconds? && 1 <= d.minutes < 60 && d.seconds < 60
            && d.minutes * 60 + d.seconds == s)
      && (3600 <= s ==>
            d.HoursMinutes? && d.hours >= 1 && d.minutes < 60
            && d.hours * 3600 + d.minutes * 60 <= s < d.hours * 3600 + (d.minutes + 1) * 60)
  {
    if s >= 3600 {
      ParseHoursMinutes(s / 3600, (s % 3600) / 60);
    } else if s >= 60 {
      ParseMinutesSeconds(s / 60, s % 60);
    } else {
      ParseSeconds(s);
    }
  }
}
