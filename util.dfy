/** util.py: `formatTimeDelta`, the "<h>h<m>m<s>s" rendering of a
    `datetime.timedelta`, and the decimal rendering it relies on. */
module Util {
  import opened Core
  import opened Strings

  /** A normalised `datetime.timedelta`; `formatTimeDelta` reads only `seconds`. */
  datatype TimeDelta = TimeDelta(days: int, seconds: int, microseconds: int)

  /** Python's normalisation of a timedelta's fields. */
  predicate Normalized(d: TimeDelta) {
    0 <= d.seconds < 86400 && 0 <= d.microseconds < 1000000
  }

  datatype Hms = Hms(hours: int, minutes: int, seconds: int)

  /** `hours, remainder = divmod(seconds, 3600); minutes, seconds = divmod(remainder, 60)`.
      Python's divmod rounds towards negative infinity, which for a positive
      divisor is what Dafny's `/` and `%` do. */
  function Hours(seconds: int): (r: Hms)
    ensures r.hours * 3600 + r.minutes * 60 + r.seconds == seconds
    ensures 0 <= r.minutes < 60 && 0 <= r.seconds < 60
    ensures 0 <= seconds < 86400 ==> 0 <= r.hours < 24
  {
    var hours, remainder := seconds / 3600, seconds % 3600;
    Hms(hours, remainder / 60, remainder % 60)
  }

  predicate IsDigit(c: char) {
    '0' <= c <= '9'
  }

  predicate AllDigits(s: string) {
    forall i :: 0 <= i < |s| ==> IsDigit(s[i])
  }

  /** `str(n)` for a natural number: its decimal digits, most significant first. */
  function NatToString(n: nat): (r: string)
    ensures |r| >= 1 && AllDigits(r)
    ensures |r| == 1 || r[0] != '0'
  {
    if n < 10 then [('0' as int + n) as char]
    else NatToString(n / 10) + [('0' as int + n % 10) as char]
  }

  /** `str(n)`, with a minus sign for a negative number. */
  function IntToString(n: int): (r: string)
    ensures |r| >= 1
    ensures forall i :: 0 <= i < |r| ==> IsDigit(r[i]) || r[i] == '-'
  {
    if n < 0 then "-" + NatToString(-n) else NatToString(n)
  }

  /** The number a string of decimal digits denotes. */
  function DigitsValue(s: string): nat
    requires AllDigits(s)
  {
    if |s| == 0 then 0
    else DigitsValue(s[..|s| - 1]) * 10 + (s[|s| - 1] as int - '0' as int)
  }

  /** `int(s)` for the strings `str` produces. */
  function ParseInt(s: string): Option<int> {
    if |s| >= 2 && s[0] == '-' && AllDigits(s[1..]) then Some(-(DigitsValue(s[1..]) as int))
    else if |s| >= 1 && AllDigits(s) then Some(DigitsValue(s) as int)
    else None
  }

  lemma {:induction false} DigitsValueOfNat(n: nat)
    ensures DigitsValue(NatToString(n)) == n
  {
    var r := NatToString(n);
    if n >= 10 {
      DigitsValueOfNat(n / 10);
      assert r[..|r| - 1] == NatToString(n / 10);
    }
  }

  /** Reading back a rendered integer gives the integer. */
  lemma ParseIntToString(n: int)
    ensures ParseInt(IntToString(n)) == Some(n)
  {
    if n < 0 {
      DigitsValueOfNat(-n);
      assert IntToString(n)[1..] == NatToString(-n);
    } else {
      DigitsValueOfNat(n);
    }
  }

  /** `'{}h{}m{}s'.format(int(hours), int(minutes), int(seconds))` of
      `divmod` applied to `delta.seconds`; `days` and `microseconds` are not read. */
  function FormatTimeDelta(delta: TimeDelta): string {
    var t := Hours(delta.seconds);
    IntToString(t.hours) + "h" + IntToString(t.minutes) + "m" + IntToString(t.seconds) + "s"
  }

  /** Reads "<h>h<m>m<s>s" back into its three numbers. */
  function ParseHms(s: string): Option<Hms> {
    var a := Split(s, 'h');
    if |a| != 2 then None
    else
      var b := Split(a[1], 'm');
      if |b| != 2 then None
      else
        var c := Split(b[1], 's');
        if |c| != 2 || c[1] != "" then None
        else
          match (ParseInt(a[0]), ParseInt(b[0]), ParseInt(c[0]))
          case (Some(h), Some(m), Some(sec)) => Some(Hms(h, m, sec))
          case _ => None
  }

  lemma NoLetterInNumber(n: int, c: char)
    requires !IsDigit(c) && c != '-'
    ensures c !in IntToString(n)
  {
    var r := IntToString(n);
    assert forall i :: 0 <= i < |r| ==> r[i] != c;
  }

  lemma SplitOnce(p: string, sep: char, t: string)
    requires sep !in p && sep !in t
    ensures Split(p + [sep] + t, sep) == [p, t]
  {
    SplitCons(p, sep, t);
    SplitNoSeparator(t, sep);
  }

  /** The three numbers of "<h>h<m>m<s>s" are found where they were put,
      provided none of them holds a unit letter. */
  lemma ParseHmsParts(h: string, m: string, s: string)
    requires 'h' !in h && 'h' !in m && 'h' !in s && 'm' !in m && 'm' !in s && 's' !in s
    ensures ParseHms(h + "h" + m + "m" + s + "s") ==
      match (ParseInt(h), ParseInt(m), ParseInt(s))
      case (Some(a), Some(b), Some(c)) => Some(Hms(a, b, c))
      case _ => None
  {
    var tail2 := s + "s";
    var tail1 := m + "m" + tail2;
    assert h + "h" + m + "m" + s + "s" == h + ['h'] + tail1;
    assert 'h' !in tail1;
    SplitOnce(h, 'h', tail1);
    assert tail1 == m + ['m'] + tail2;
    assert 'm' !in tail2;
    SplitOnce(m, 'm', tail2);
    assert tail2 == s + ['s'] + "";
    SplitOnce(s, 's', "");
  }

  /** The rendering is lossless: it reads back as the hours, minutes and
      seconds that divmod computes, so the three numbers recombine to
      `delta.seconds` and the minutes and seconds are below 60. */
  lemma FormatTimeDeltaParses(delta: TimeDelta)
    ensures ParseHms(FormatTimeDelta(delta)) == Some(Hours(delta.seconds))
    ensures var t := Hours(delta.seconds);
      t.hours * 3600 + t.minutes * 60 + t.seconds == delta.seconds && 0 <= t.minutes < 60 && 0 <= t.seconds < 60
  {
    var t := Hours(delta.seconds);
    NoLetterInNumber(t.hours, 'h');
    NoLetterInNumber(t.minutes, 'h');
    NoLetterInNumber(t.seconds, 'h');
    NoLetterInNumber(t.minutes, 'm');
    NoLetterInNumber(t.seconds, 'm');
    NoLetterInNumber(t.seconds, 's');
    ParseHmsParts(IntToString(t.hours), IntToString(t.minutes), IntToString(t.seconds));
    ParseIntToString(t.hours);
    ParseIntToString(t.minutes);
    ParseIntToString(t.seconds);
  }

  /** Only `delta.seconds` is read: the days and microseconds do not change the text. */
  lemma FormatIgnoresDays(d1: TimeDelta, d2: TimeDelta)
    requires d1.seconds == d2.seconds
    ensures FormatTimeDelta(d1) == FormatTimeDelta(d2)
  {
  }

  /** A normalised delta renders at most 23 hours. */
  lemma FormatHoursBelowADay(delta: TimeDelta)
    requires Normalized(delta)
    ensures ParseHms(FormatTimeDelta(delta)).Some?
    ensures 0 <= ParseHms(FormatTimeDelta(delta)).value.hours < 24
  {
    FormatTimeDeltaParses(delta);
  }
}
