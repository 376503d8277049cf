/**
 * `GetFormattedTime`: a duration in seconds as "H hour(s), M minute(s)",
 * together with a parser for that format that recovers the parts.
 */
module Formatting {
  import opened Wrappers
  import opened Statistics

  predicate IsDigit(c: char)
  {
    '0' <= c <= '9'
  }

  predicate AllDigits(s: string)
  {
    forall i :: 0 <= i < |s| ==> IsDigit(s[i])
  }

  function DigitChar(d: nat): (c: char)
    requires d < 10
    ensures IsDigit(c)
  {
    ('0' as int + d) as char
  }

  function DigitValue(c: char): (d: nat)
    requires IsDigit(c)
    ensures d < 10
  {
    c as int - '0' as int
  }

  /** `std::to_string` of an unsigned integer: its decimal digits, most significant first. */
  function NatToString(n: nat): (s: string)
    ensures |s| > 0 && AllDigits(s)
    ensures n > 0 ==> s[0] != '0'
  {
    if n < 10 then [DigitChar(n)] else NatToString(n / 10) + [DigitChar(n % 10)]
  }

  /** The number a string of decimal digits denotes. */
  function DigitsValue(s: string): nat
    requires AllDigits(s)
  {
    if s == [] then 0 else DigitsValue(s[..|s| - 1]) * 10 + DigitValue(s[|s| - 1])
  }

  /** Reading back the decimal digits gives the number. */
  lemma {:induction false} DigitsRoundTrip(n: nat)
    ensures DigitsValue(NatToString(n)) == n
  {
    var s := NatToString(n);
    if n >= 10 {
      DigitsRoundTrip(n / 10);
      assert s[..|s| - 1] == NatToString(n / 10);
    }
  }

  /** The longest prefix of `s` made of digits. */
  function LeadingDigits(s: string): (d: string)
    ensures d <= s && AllDigits(d)
  {
    if s == [] || !IsDigit(s[0]) then [] else [s[0]] + LeadingDigits(s[1..])
  }

  lemma {:induction false} LeadingDigitsOf(d: string, w: string)
    requires AllDigits(d) && (w == [] || !IsDigit(w[0]))
    ensures LeadingDigits(d + w) == d
  {
    if d != [] {
      assert (d + w)[1..] == d[1..] + w;
      LeadingDigitsOf(d[1..], w);
    }
  }

  // ---------------------------------------------------------------------------
  // The formatter (lines 229-248)
  // ---------------------------------------------------------------------------

  function Hours(seconds: u32): nat
  {
    seconds as nat / 3600
  }

  function Minutes(seconds: u32): nat
  {
    (seconds as nat / 60) % 60
  }

  /** The formatted time; it is empty exactly for durations shorter than a minute. */
  function GetFormattedTime(seconds: u32): (s: string)
    ensures s == "" <==> seconds < 60
  {
    Compose(Hours(seconds), Minutes(seconds))
  }

  /** The text for a number of hours and of minutes, each omitted when zero. */
  function Compose(hours: nat, minutes: nat): string
  {
    var hourPart := if hours > 0
                    then NatToString(hours) + (if hours == 1 then " hour" else " hours")
                         + (if minutes > 0 then ", " else "")
                    else "";
    var minutePart := if minutes > 0
                      then NatToString(minutes) + (if minutes == 1 then " minute" else " minutes")
                      else "";
    hourPart + minutePart
  }

  // ---------------------------------------------------------------------------
  // A parser for the format
  // ---------------------------------------------------------------------------

  datatype Unit = Hour | Minute

  /** One "N unit" part of a formatted time, with whether the unit word was plural. */
  datatype Part = Part(count: nat, unit: Unit, plural: bool)

  /** The unit word following a count, with its leading space. */
  function UnitWord(unit: Unit, plural: bool): string
  {
    match unit
    case Hour => if plural then " hours" else " hour"
    case Minute => if plural then " minutes" else " minute"
  }

  /** Read a unit word at the front of `s`, the plural form first. */
  function ParseUnitWord(s: string): (r: Option<(Unit, bool, string)>)
    ensures r.Some? ==> |r.value.2| < |s|
  {
    if " hours" <= s then Some((Hour, true, s[6..]))
    else if " hour" <= s then Some((Hour, false, s[5..]))
    else if " minutes" <= s then Some((Minute, true, s[8..]))
    else if " minute" <= s then Some((Minute, false, s[7..]))
    else None
  }

  /** Read one part at the front of `t`, returning it and what follows. */
  function ParsePart(t: string): (r: Option<(Part, string)>)
    ensures r.Some? ==> |r.value.1| < |t|
  {
    var digits := LeadingDigits(t);
    if digits == [] then None
    else
      match ParseUnitWord(t[|digits|..])
      case None => None
      case Some((unit, plural, rest)) => Some((Part(DigitsValue(digits), unit, plural), rest))
  }

  /** Read a non-empty list of parts separated by ", ". */
  function ParseParts(t: string): Option<seq<Part>>
    decreases |t|
  {
    match ParsePart(t)
    case None => None
    case Some((p, rest)) =>
      if rest == [] then Some([p])
      else if ", " <= rest then
        match ParseParts(rest[2..])
        case None => None
        case Some(ps) => Some([p] + ps)
      else None
  }

  /** Read a formatted time: no parts for the empty string. */
  function ParseFormattedTime(t: string): Option<seq<Part>>
  {
    if t == [] then Some([]) else ParseParts(t)
  }

  /**
   * The parts a duration should show: whole hours, then the minutes of the
   * last started hour, each only when non-zero, singular exactly for a count
   * of one.
   */
  function ExpectedParts(seconds: u32): seq<Part>
  {
    PartsOf(seconds as nat / 3600, (seconds as nat / 60) % 60)
  }

  /** A unit word followed by the end or by ", " reads back as that word. */
  lemma UnitWordRoundTrip(unit: Unit, plural: bool, rest: string)
    requires rest == [] || ", " <= rest
    ensures ParseUnitWord(UnitWord(unit, plural) + rest) == Some((unit, plural, rest))
  {
    var word := UnitWord(unit, plural);
    var r := word + rest;
    assert r[..|word|] == word && r[|word|..] == rest;
    assert |rest| > 0 ==> r[|word|] == ',';
    match unit
    case Hour =>
      if !plural {
        assert !(" hours" <= r) by { if |r| >= 6 { assert r[5] == ','; } }
      }
    case Minute =>
      assert r[1] == 'm';
      if !plural {
        assert !(" minutes" <= r) by { if |r| >= 8 { assert r[7] == ','; } }
      }
  }

  /** A count followed by its unit word, then the end or a ", ", reads back as that part. */
  lemma PartRoundTrip(n: nat, unit: Unit, plural: bool, rest: string)
    requires rest == [] || ", " <= rest
    ensures ParsePart(NatToString(n) + UnitWord(unit, plural) + rest)
            == Some((Part(n, unit, plural), rest))
  {
    var digits := NatToString(n);
    var r := UnitWord(unit, plural) + rest;
    var t := digits + UnitWord(unit, plural) + rest;
    assert t == digits + r;
    assert r[0] == ' ';
    LeadingDigitsOf(digits, r);
    DigitsRoundTrip(n);
    assert t[|digits|..] == r;
    UnitWordRoundTrip(unit, plural, rest);
  }

  /** The parts shown for a number of hours and of minutes. */
  function PartsOf(hours: nat, minutes: nat): seq<Part>
  {
    (if hours > 0 then [Part(hours, Hour, hours != 1)] else [])
    + (if minutes > 0 then [Part(minutes, Minute, minutes != 1)] else [])
  }

  /** A single part reads back as a one-element list. */
  lemma SinglePartRoundTrip(n: nat, unit: Unit, plural: bool)
    ensures ParseParts(NatToString(n) + UnitWord(unit, plural)) == Some([Part(n, unit, plural)])
  {
    var t := NatToString(n) + UnitWord(unit, plural);
    PartRoundTrip(n, unit, plural, []);
    assert t + [] == t;
  }

  /** A part followed by ", " and a readable list reads back as that part, then the list. */
  lemma ConsPartRoundTrip(n: nat, unit: Unit, plural: bool, tail: string, parts: seq<Part>)
    requires ParseParts(tail) == Some(parts)
    ensures ParseParts(NatToString(n) + UnitWord(unit, plural) + (", " + tail))
            == Some([Part(n, unit, plural)] + parts)
  {
    var rest := ", " + tail;
    PartRoundTrip(n, unit, plural, rest);
    assert rest[2..] == tail;
    assert rest != [];
  }

  /** The text of a count of `unit`. */
  function Word(n: nat, unit: Unit): string
  {
    NatToString(n) + UnitWord(unit, n != 1)
  }

  lemma ComposeBoth(hours: nat, minutes: nat)
    requires hours > 0 && minutes > 0
    ensures Compose(hours, minutes) == Word(hours, Hour) + (", " + Word(minutes, Minute))
  {
    var a := NatToString(hours) + (if hours == 1 then " hour" else " hours");
    var b := NatToString(minutes) + (if minutes == 1 then " minute" else " minutes");
    assert Compose(hours, minutes) == a + ", " + b;
    assert a + ", " + b == a + (", " + b);
  }

  lemma ComposeOne(hours: nat, minutes: nat)
    requires (hours > 0) != (minutes > 0)
    ensures Compose(hours, minutes) == if hours > 0 then Word(hours, Hour) else Word(minutes, Minute)
  {
    if hours > 0 {
      assert Compose(hours, minutes) == NatToString(hours) + (if hours == 1 then " hour" else " hours") + "" + "";
    } else {
      assert Compose(hours, minutes) == "" + (NatToString(minutes) + (if minutes == 1 then " minute" else " minutes"));
    }
  }

  lemma ComposeRoundTrip(hours: nat, minutes: nat)
    ensures ParseFormattedTime(Compose(hours, minutes)) == Some(PartsOf(hours, minutes))
  {
    if hours > 0 && minutes > 0 {
      ComposeBoth(hours, minutes);
      SinglePartRoundTrip(minutes, Minute, minutes != 1);
      ConsPartRoundTrip(hours, Hour, hours != 1, Word(minutes, Minute), [Part(minutes, Minute, minutes != 1)]);
    } else if hours > 0 {
      ComposeOne(hours, minutes);
      SinglePartRoundTrip(hours, Hour, hours != 1);
      assert PartsOf(hours, minutes) == [Part(hours, Hour, hours != 1)];
    } else if minutes > 0 {
      ComposeOne(hours, minutes);
      SinglePartRoundTrip(minutes, Minute, minutes != 1);
      assert PartsOf(hours, minutes) == [Part(minutes, Minute, minutes != 1)];
    }
  }

  /**
   * The formatted time reads back as exactly the expected parts: it is empty
   * when hours and minutes are both zero, each unit is singular exactly when
   * its count is one, and ", " separates the two parts only when both are
   * present.
   */
  lemma FormattedTimeRoundTrip(seconds: u32)
    ensures ParseFormattedTime(GetFormattedTime(seconds)) == Some(ExpectedParts(seconds))
  {
    ComposeRoundTrip(Hours(seconds), Minutes(seconds));
  }
}
