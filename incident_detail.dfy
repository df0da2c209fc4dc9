/**
 * The detail dialog for the selected incident (IncidentDetailModal.tsx):
 * icon, colour class, "<Type> Reported" badge and the full-word elapsed time.
 */
module IncidentDetail {
  import opened Text
  import opened Incident
  import opened Elapsed
  import opened ReportModal

  /** `getIncidentTypeIcon`: three fixed icons and a pin for any other string. */
  function TypeIcon(t: string): string {
    if t == "checkpoint" then "\U{1F6A7}"
    else if t == "raid" then "\U{1F6A8}"
    else if t == "detention" then "\U{26A0}\U{FE0F}"
    else "\U{1F4CD}"
  }

  /** `getIncidentTypeColor`: three fixed classes and a yellow default for any other string. */
  function TypeColor(t: string): string {
    if t == "checkpoint" then "text-orange-600 bg-orange-50"
    else if t == "raid" then "text-red-600 bg-red-50"
    else if t == "detention" then "text-red-700 bg-red-100"
    else "text-yellow-600 bg-yellow-50"
  }

  /** Both mappings tell the four incident types apart and send every unknown string to the default. */
  lemma TypeStylesDistinguishTypes(t: IncidentType, u: IncidentType, s: string)
    ensures TypeIcon(Name(t)) == TypeIcon(Name(u)) ==> t == u
    ensures TypeColor(Name(t)) == TypeColor(Name(u)) ==> t == u
    ensures FromName(s).None? ==> TypeIcon(s) == TypeIcon(Name(Other)) && TypeColor(s) == TypeColor(Name(Other))
  {
  }

  /** `getTimeAgo` at the moment `now` (milliseconds), with full words and plurals. */
  function TimeAgo(now: int, timestamp: int): (text: string)
    ensures ParseLongLabel(text) == Some(Classify(now - timestamp))
  {
    LongLabelRoundTrip(Classify(now - timestamp));
    LongLabel(Classify(now - timestamp))
  }

  /** Helpers for the examples below: the label of one elapsed amount, one fact per lemma. */
  lemma TimeAgoIs(now: int, timestamp: int, e: Elapsed)
    requires Classify(now - timestamp) == e
    ensures TimeAgo(now, timestamp) == LongLabel(e)
  {
  }

  lemma OneMinuteWording()
    ensures LongLabel(Minutes(1)) == "1 minute ago"
  {
  }

  lemma FiveMinutesWording()
    ensures LongLabel(Minutes(5)) == "5 minutes ago"
  {
  }

  lemma OneHourWording()
    ensures LongLabel(Hours(1)) == "1 hour ago"
  {
  }

  lemma TwoHoursWording()
    ensures LongLabel(Hours(2)) == "2 hours ago"
  {
  }

  /** Sample labels, singular and plural. */
  lemma TimeAgoExamples(now: int)
    ensures TimeAgo(now, now - 30 * 1000) == "Just now"
    ensures TimeAgo(now, now - MinuteMs) == "1 minute ago"
    ensures TimeAgo(now, now - 5 * MinuteMs) == "5 minutes ago"
    ensures TimeAgo(now, now - HourMs - 1) == "1 hour ago"
    ensures TimeAgo(now, now - 2 * HourMs) == "2 hours ago"
    ensures TimeAgo(now, now + HourMs) == "Just now"
  {
    OneMinuteWording();
    FiveMinutesWording();
    OneHourWording();
    TwoHoursWording();
    TimeAgoIs(now, now - 30 * 1000, JustNow);
    TimeAgoIs(now, now - MinuteMs, Minutes(1));
    TimeAgoIs(now, now - 5 * MinuteMs, Minutes(5));
    TimeAgoIs(now, now - HourMs - 1, Hours(1));
    TimeAgoIs(now, now - 2 * HourMs, Hours(2));
    TimeAgoIs(now, now + HourMs, JustNow);
  }

  /** `type.charAt(0).toUpperCase() + type.slice(1)` followed by " Reported". */
  function ReportedBadge(t: string): (badge: string)
    ensures |badge| == |t| + 9 && badge[|t|..] == " Reported"
    ensures t != [] ==> badge[0] == ToUpper(t[0]) && badge[1..|t|] == t[1..]
  {
    var cap := Capitalize(t);
    assert (cap + " Reported")[..|t|] == cap;
    cap + " Reported"
  }

  lemma BadgeOfWord(t: string, rest: string, c: char)
    requires t == [c] + rest && 'a' <= c <= 'z'
    ensures ReportedBadge(t) == ([(c as int - 32) as char] + rest) + " Reported"
  {
    assert t[1..] == rest;
  }

  /** The capitalised word of each type, as the report form's type buttons also label it. */
  function Title(t: IncidentType): string {
    match t
    case Checkpoint => "Checkpoint"
    case Raid => "Raid"
    case Detention => "Detention"
    case Other => "Other"
  }

  /** The badge text of each incident type. */
  lemma ReportedBadgeOfType(t: IncidentType)
    ensures ReportedBadge(Name(t)) == Title(t) + " Reported"
  {
    match t
    case Checkpoint =>
      BadgeOfWord("checkpoint", "heckpoint", 'c');
      assert [('c' as int - 32) as char] + "heckpoint" == "Checkpoint";
    case Raid =>
      BadgeOfWord("raid", "aid", 'r');
      assert [('r' as int - 32) as char] + "aid" == "Raid";
    case Detention =>
      BadgeOfWord("detention", "etention", 'd');
      assert [('d' as int - 32) as char] + "etention" == "Detention";
    case Other =>
      BadgeOfWord("other", "ther", 'o');
      assert [('o' as int - 32) as char] + "ther" == "Other";
  }

  /** The badge names an incident's type with the label of the form button that chose it. */
  lemma BadgeMatchesFormLabel(d: ReportData, k: nat)
    requires k < 4
    ensures ReportedBadge(Name(TypeButtons(d)[k].kind)) == TypeButtons(d)[k].text + " Reported"
  {
    var b := TypeButtons(d)[k];
    ReportedBadgeOfType(b.kind);
    assert b.text == Title(b.kind);
  }

  /** What the dialog shows. The coordinates (`toFixed(4)`) and the absolute date (`toLocaleString`) are not modelled. */
  datatype DetailView =
    | Hidden
    | Shown(incident: Incident, icon: string, colorClass: string, badge: string, timeAgo: string)

  /** `if (!incident) return null;` otherwise the filled-in dialog. */
  function Render(selected: Option<Incident>, now: int): (v: DetailView)
    ensures v.Hidden? <==> selected.None?
    ensures v.Shown? ==> v.incident == selected.value
    ensures v.Shown? ==> v.icon == TypeIcon(Name(v.incident.kind)) && v.colorClass == TypeColor(Name(v.incident.kind))
    ensures v.Shown? ==> v.badge == Title(v.incident.kind) + " Reported"
    ensures v.Shown? ==> v.timeAgo == TimeAgo(now, v.incident.timestamp)
  {
    match selected
    case None => Hidden
    case Some(i) =>
      var t := Name(i.kind);
      var badge := ReportedBadge(t);
      var timeAgo := TimeAgo(now, i.timestamp);
      ReportedBadgeOfType(i.kind);
      Shown(i, TypeIcon(t), TypeColor(t), badge, timeAgo)
  }
}
