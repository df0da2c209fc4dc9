/**
 * The elapsed-time arithmetic shared by the two `getTimeAgo` helpers
 * (ActivitySidebar.tsx and IncidentDetailModal.tsx): the difference between
 * now and the report time, in milliseconds, floored to whole hours and whole
 * minutes, and the two ways the result is worded.
 */
module Elapsed {
  import opened Text
  import opened Incident

  const MinuteMs: int := 1000 * 60
  const HourMs: int := 1000 * 60 * 60

  /** Which branch of `getTimeAgo` fires, with the count it prints. */
  datatype Elapsed = JustNow | Minutes(minutes: nat) | Hours(hours: nat)

  /**
   * `hours = Math.floor(diff / 3600000)`, `minutes = Math.floor(diff / 60000)`;
   * hours win when positive, then minutes, else "just now". Dafny's `/` with
   * a positive divisor is the floor of the quotient, negative `diff` included.
   */
  function Classify(diff: int): (e: Elapsed)
    ensures e.Hours? <==> diff >= HourMs
    ensures e.JustNow? <==> diff < MinuteMs
    ensures e.Hours? ==> 1 <= e.hours && e.hours * HourMs <= diff < (e.hours + 1) * HourMs
    ensures e.Minutes? ==> 1 <= e.minutes <= 59 && e.minutes * MinuteMs <= diff < (e.minutes + 1) * MinuteMs
  {
    var hours := diff / HourMs;
    var minutes := diff / MinuteMs;
    if hours > 0 then Hours(hours)
    else if minutes > 0 then Minutes(minutes)
    else JustNow
  }

  /** Abbreviated wording of the activity feed: "{h}h ago", "{m}m ago", "Just now". */
  function ShortLabel(e: Elapsed): string {
    match e
    case Hours(h) => NatToString(h) + "h ago"
    case Minutes(m) => NatToString(m) + "m ago"
    case JustNow => "Just now"
  }

  function Plural(n: nat): string {
    if n > 1 then "s" else ""
  }

  /** Full wording of the detail view: "{h} hour(s) ago", "{m} minute(s) ago", "Just now". */
  function LongLabel(e: Elapsed): string {
    match e
    case Hours(h) => NatToString(h) + (" hour" + Plural(h) + " ago")
    case Minutes(m) => NatToString(m) + (" minute" + Plural(m) + " ago")
    case JustNow => "Just now"
  }

  /** Reads an abbreviated label back; the inverse of `ShortLabel`. */
  function ParseShortLabel(s: string): Option<Elapsed> {
    var k := DigitPrefixLen(s);
    if k == 0 then
      if s == "Just now" then Some(JustNow) else None
    else
      var n := ParseDecimal(s[..k]);
      if s[k..] == "h ago" then Some(Hours(n))
      else if s[k..] == "m ago" then Some(Minutes(n))
      else None
  }

  /** Reads a full-word label back; the inverse of `LongLabel`. */
  function ParseLongLabel(s: string): Option<Elapsed> {
    var k := DigitPrefixLen(s);
    if k == 0 then
      if s == "Just now" then Some(JustNow) else None
    else
      var n := ParseDecimal(s[..k]);
      var unit := s[k..];
      if unit == " hour ago" || unit == " hours ago" then Some(Hours(n))
      else if unit == " minute ago" || unit == " minutes ago" then Some(Minutes(n))
      else None
  }

  lemma {:induction false} ShortLabelRoundTrip(e: Elapsed)
    ensures ParseShortLabel(ShortLabel(e)) == Some(e)
  {
    match e
    case JustNow =>
      assert DigitPrefixLen("Just now") == 0;
    case Hours(h) =>
      DigitPrefixOfConcat(NatToString(h), "h ago");
      ParseNatToString(h);
    case Minutes(m) =>
      DigitPrefixOfConcat(NatToString(m), "m ago");
      ParseNatToString(m);
  }

  lemma {:induction false} LongLabelRoundTrip(e: Elapsed)
    ensures ParseLongLabel(LongLabel(e)) == Some(e)
  {
    match e
    case JustNow =>
    case Hours(h) =>
      var unit := " hour" + Plural(h) + " ago";
      assert unit == " hour ago" || unit == " hours ago";
      DigitPrefixOfConcat(NatToString(h), unit);
      ParseNatToString(h);
    case Minutes(m) =>
      var unit := " minute" + Plural(m) + " ago";
      assert unit == " minute ago" || unit == " minutes ago";
      DigitPrefixOfConcat(NatToString(m), unit);
      ParseNatToString(m);
  }

  /** Different elapsed amounts are never worded alike, in either form. */
  lemma LabelsDistinguishElapsed(e1: Elapsed, e2: Elapsed)
    ensures ShortLabel(e1) == ShortLabel(e2) ==> e1 == e2
    ensures LongLabel(e1) == LongLabel(e2) ==> e1 == e2
  {
    ShortLabelRoundTrip(e1);
    ShortLabelRoundTrip(e2);
    LongLabelRoundTrip(e1);
    LongLabelRoundTrip(e2);
  }

  /** The long label uses the singular exactly when the count is one. */
  lemma {:induction false} LongLabelPlural(e: Elapsed)
    requires !e.JustNow?
    ensures var n := if e.Hours? then e.hours else e.minutes;
            var unit := if e.Hours? then " hour" else " minute";
            LongLabel(e) == NatToString(n) + unit + (if n > 1 then "s ago" else " ago")
  {
    match e
    case Hours(h) =>
      assert " hour" + Plural(h) + " ago" == " hour" + (if h > 1 then "s ago" else " ago");
    case Minutes(m) =>
      assert " minute" + Plural(m) + " ago" == " minute" + (if m > 1 then "s ago" else " ago");
  }
}
