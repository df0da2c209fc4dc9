/**
 * The "Recent Activity" panel (ActivitySidebar.tsx): a copy of the incident
 * list sorted newest first, each entry with a coloured dot and an abbreviated
 * elapsed-time label.
 */
module ActivitySidebar {
  import opened Incident
  import opened Elapsed

  /** `getIncidentTypeColor`: three fixed classes and a yellow default for any other string. */
  function TypeColor(t: string): string {
    if t == "checkpoint" then "bg-orange-500"
    else if t == "raid" then "bg-red-500"
    else if t == "detention" then "bg-red-700"
    else "bg-yellow-500"
  }

  /** The colour tells the three named types apart and gives every other type the default. */
  lemma TypeColorTable(t: IncidentType, s: string)
    ensures TypeColor(Name(t)) == "bg-yellow-500" <==> t == Other
    ensures forall u: IncidentType :: TypeColor(Name(u)) == TypeColor(Name(t)) ==> u == t
    ensures FromName(s).None? ==> TypeColor(s) == "bg-yellow-500"
  {
  }

  /** `getTimeAgo` at the moment `now` (milliseconds). */
  function TimeAgo(now: int, timestamp: int): (text: string)
    ensures ParseShortLabel(text) == Some(Classify(now - timestamp))
  {
    ShortLabelRoundTrip(Classify(now - timestamp));
    ShortLabel(Classify(now - timestamp))
  }

  /** Helpers for the examples below: the label of one elapsed amount, one fact per lemma. */
  lemma TimeAgoIs(now: int, timestamp: int, e: Elapsed)
    requires Classify(now - timestamp) == e
    ensures TimeAgo(now, timestamp) == ShortLabel(e)
  {
  }

  lemma FiveMinutesWording()
    ensures ShortLabel(Minutes(5)) == "5m ago"
  {
  }

  lemma TwoHoursWording()
    ensures ShortLabel(Hours(2)) == "2h ago"
  {
  }

  /** Sample labels: 30 s, 5 min, 2 h, and a report from the future. */
  lemma TimeAgoExamples(now: int)
    ensures TimeAgo(now, now - 30 * 1000) == "Just now"
    ensures TimeAgo(now, now - 5 * MinuteMs) == "5m ago"
    ensures TimeAgo(now, now - 2 * HourMs) == "2h ago"
    ensures TimeAgo(now, now + 1) == "Just now"
  {
    FiveMinutesWording();
    TwoHoursWording();
    TimeAgoIs(now, now - 30 * 1000, JustNow);
    TimeAgoIs(now, now - 5 * MinuteMs, Minutes(5));
    TimeAgoIs(now, now - 2 * HourMs, Hours(2));
    TimeAgoIs(now, now + 1, JustNow);
  }

  /** Timestamps never increase along `s`. */
  predicate NonIncreasing(s: seq<Incident>) {
    forall i, j :: 0 <= i < j < |s| ==> s[i].timestamp >= s[j].timestamp
  }

  /** Every incident of `s` is reported at `t` or earlier. */
  predicate NoLaterThan(s: seq<Incident>, t: int) {
    forall j :: 0 <= j < |s| ==> s[j].timestamp <= t
  }

  lemma NoLaterThanPermutation(s: seq<Incident>, q: seq<Incident>, x: Incident, t: int)
    requires NoLaterThan(s, t) && x.timestamp <= t
    requires multiset(q) == multiset(s) + multiset{x}
    ensures NoLaterThan(q, t)
  {
    forall j | 0 <= j < |q| ensures q[j].timestamp <= t {
      assert q[j] in multiset(q);
      if q[j] != x {
        assert q[j] in multiset(s);
        var i :| 0 <= i < |s| && s[i] == q[j];
      }
    }
  }

  /** Keeping the head of a sorted list in front of the insertion keeps the list sorted. */
  lemma InsertBehindHead(x: Incident, r: seq<Incident>, rest: seq<Incident>)
    requires r != [] && x.timestamp < r[0].timestamp
    requires multiset(rest) == multiset(r[1..]) + multiset{x}
    requires NonIncreasing(r[1..]) ==> NonIncreasing(rest)
    ensures NonIncreasing(r) ==> NonIncreasing([r[0]] + rest)
  {
    if NonIncreasing(r) {
      assert NoLaterThan(r[1..], r[0].timestamp);
      NoLaterThanPermutation(r[1..], rest, x, r[0].timestamp);
    }
  }

  /**
   * One step of a stable insertion sort, descending by timestamp: `x` goes
   * before the first element that is not newer than it.
   */
  function Insert(x: Incident, r: seq<Incident>): (q: seq<Incident>)
    ensures multiset(q) == multiset(r) + multiset{x}
    ensures NonIncreasing(r) ==> NonIncreasing(q)
  {
    if r == [] || x.timestamp >= r[0].timestamp then [x] + r
    else
      var rest := Insert(x, r[1..]);
      assert r == [r[0]] + r[1..];
      InsertBehindHead(x, r, rest);
      [r[0]] + rest
  }

  /**
   * `[...incidents].sort((a, b) => b.timestamp.getTime() - a.timestamp.getTime())`:
   * the sort works on a copy, so the caller's list is a value this function
   * does not change. `Array.prototype.sort` is stable (ECMA-262 since 2019).
   */
  function SortByTimestampDesc(s: seq<Incident>): (r: seq<Incident>)
    ensures multiset(r) == multiset(s) && |r| == |s|
    ensures NonIncreasing(r)
  {
    if s == [] then []
    else
      assert s == [s[0]] + s[1..];
      Insert(s[0], SortByTimestampDesc(s[1..]))
  }

  /** The incidents of `s` reported at exactly `t`, in the order of `s`. */
  function WithTimestamp(s: seq<Incident>, t: int): seq<Incident> {
    if s == [] then []
    else (if s[0].timestamp == t then [s[0]] else []) + WithTimestamp(s[1..], t)
  }

  lemma {:induction false} InsertKeepsTies(x: Incident, r: seq<Incident>, t: int)
    ensures WithTimestamp(Insert(x, r), t) == (if x.timestamp == t then [x] else []) + WithTimestamp(r, t)
  {
    if r == [] || x.timestamp >= r[0].timestamp {
      assert ([x] + r)[1..] == r;
    } else {
      var rest := Insert(x, r[1..]);
      assert ([r[0]] + rest)[1..] == rest;
      InsertKeepsTies(x, r[1..], t);
    }
  }

  /**
   * Stability: incidents with equal timestamps keep their input order, so for
   * every timestamp the incidents carrying it appear in the same order before
   * and after sorting.
   */
  lemma {:induction false} SortIsStable(s: seq<Incident>, t: int)
    ensures WithTimestamp(SortByTimestampDesc(s), t) == WithTimestamp(s, t)
  {
    if s != [] {
      InsertKeepsTies(s[0], SortByTimestampDesc(s[1..]), t);
      SortIsStable(s[1..], t);
    }
  }

  /**
   * An incident at least as recent as every other (a report just submitted,
   * prepended to the list) heads the feed, ties included.
   */
  lemma NewestFirst(x: Incident, s: seq<Incident>)
    requires forall y :: y in s ==> y.timestamp <= x.timestamp
    ensures SortByTimestampDesc([x] + s)[0] == x
  {
    assert ([x] + s)[1..] == s;
    var r := SortByTimestampDesc(s);
    if r != [] {
      assert r[0] in multiset(s);
    }
  }

  /** A sorted list is its own sort. */
  lemma {:induction false} SortKeepsSorted(s: seq<Incident>)
    requires NonIncreasing(s)
    ensures SortByTimestampDesc(s) == s
  {
    if s != [] {
      SortKeepsSorted(s[1..]);
      assert s[1..] == [] || s[0].timestamp >= s[1..][0].timestamp;
      assert [s[0]] + s[1..] == s;
    }
  }

  /** One row of the panel. */
  datatype FeedEntry = FeedEntry(incident: Incident, dotClass: string, timeAgo: string)

  /** What the panel shows: nothing, the "No incidents reported yet" notice, or the rows. */
  datatype SidebarView = Closed | NoIncidents | Entries(entries: seq<FeedEntry>)

  /** A row: the incident, the dot colour of its type and its abbreviated elapsed label. */
  function Entry(incident: Incident, now: int): (e: FeedEntry)
    ensures e.incident == incident
    ensures e.dotClass == TypeColor(Name(incident.kind))
    ensures e.timeAgo == TimeAgo(now, incident.timestamp)
    ensures ParseShortLabel(e.timeAgo) == Some(Classify(now - incident.timestamp))
  {
    FeedEntry(incident, TypeColor(Name(incident.kind)), TimeAgo(now, incident.timestamp))
  }

  /** `if (!isOpen) return null;`, then the notice for an empty list or one row per incident of the sorted copy. */
  function Render(isOpen: bool, incidents: seq<Incident>, now: int): (v: SidebarView)
    ensures v.Closed? <==> !isOpen
    ensures v.NoIncidents? <==> isOpen && incidents == []
    ensures v.Entries? ==> |v.entries| == |incidents|
    ensures v.Entries? ==> forall i, j :: 0 <= i < j < |v.entries| ==>
              v.entries[i].incident.timestamp >= v.entries[j].incident.timestamp
    ensures v.Entries? ==> multiset(seq(|v.entries|, k requires 0 <= k < |v.entries| => v.entries[k].incident)) == multiset(incidents)
    ensures v.Entries? ==> forall k :: 0 <= k < |v.entries| ==> v.entries[k] == Entry(SortByTimestampDesc(incidents)[k], now)
  {
    var sorted := SortByTimestampDesc(incidents);
    if !isOpen then Closed
    else if |sorted| == 0 then NoIncidents
    else
      var entries := seq(|sorted|, k requires 0 <= k < |sorted| => Entry(sorted[k], now));
      assert seq(|entries|, k requires 0 <= k < |entries| => entries[k].incident) == sorted;
      Entries(entries)
  }
}
