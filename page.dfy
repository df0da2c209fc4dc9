/**
 * The page component (page.tsx): it owns the incident list, the open/closed
 * flags of the report form and the activity panel, and the selected
 * incident, and it turns a submitted report into a new incident at the front
 * of the list.
 */
module Page {
  import opened Text
  import opened Incident
  import opened ReportModal
  import MapView
  import ActivitySidebar

  /** The fallback position (New York) used when a report has no usable coordinate. */
  const DefaultLat: real := 40.7128
  const DefaultLng: real := -74.006

  /** JavaScript `v || fallback` on an optional number: `undefined` and `0` are falsy. */
  function OrFallback(v: Option<real>, fallback: real): real {
    if v.Some? && v.value != 0.0 then v.value else fallback
  }

  /**
   * The incident `handleReportSubmit` builds. `id` stands for
   * `Date.now().toString()` and `now` for `new Date()`.
   */
  function NewIncident(report: ReportData, id: string, now: int): (i: Incident)
    ensures i.id == id && i.timestamp == now
    ensures i.kind == report.kind && i.description == report.description && i.location == report.location
    ensures i.lat != 0.0 && i.lng != 0.0
    ensures i.lat == (if report.lat.None? || report.lat.value == 0.0 then DefaultLat else report.lat.value)
    ensures i.lng == (if report.lng.None? || report.lng.value == 0.0 then DefaultLng else report.lng.value)
  {
    Incident(id, OrFallback(report.lat, DefaultLat), OrFallback(report.lng, DefaultLng),
             report.kind, report.description, now, report.location)
  }

  /**
   * The count bubble on the activity button: nothing for an empty list, the
   * count for 1 to 9, and "9+" beyond.
   */
  function BadgeLabel(count: nat): (text: Option<string>)
    ensures text.None? <==> count == 0
    ensures 1 <= count <= 9 ==> text.Some? && |text.value| == 1 && AllDigits(text.value) && ParseDecimal(text.value) == count
    ensures count > 9 ==> text == Some("9+")
  {
    if count == 0 then None
    else if count > 9 then Some("9+")
    else
      ParseNatToString(count);
      Some(NatToString(count))
  }

  /** The `GeolocationPositionError` codes. */
  const PermissionDeniedCode := 1
  const PositionUnavailableCode := 2
  const TimeoutCode := 3

  datatype LocationErrorKind = PermissionDenied | PositionUnavailable | Timeout | UnknownError

  /** The `switch (error.code)` of `handleCenterLocation`, with its default arm. */
  function ErrorKind(code: int): LocationErrorKind {
    if code == PermissionDeniedCode then PermissionDenied
    else if code == PositionUnavailableCode then PositionUnavailable
    else if code == TimeoutCode then Timeout
    else UnknownError
  }

  const ErrorPrefix := "Unable to get your location. "

  function ErrorAdvice(k: LocationErrorKind): string {
    match k
    case PermissionDenied => "Please allow location access in your browser settings and try again."
    case PositionUnavailable => "Location information is unavailable."
    case Timeout => "Location request timed out. Please try again."
    case UnknownError => "Please enable location services and try again."
  }

  /** The alert text for a failed "center on my location": the fixed prefix and one advice. */
  function LocationErrorMessage(code: int): (msg: string)
    ensures |msg| > |ErrorPrefix| && msg[..|ErrorPrefix|] == ErrorPrefix
    ensures msg[|ErrorPrefix|..] == ErrorAdvice(ErrorKind(code))
  {
    var advice := ErrorAdvice(ErrorKind(code));
    assert (ErrorPrefix + advice)[|ErrorPrefix|..] == advice;
    ErrorPrefix + advice
  }

  /** Each error class gets its own message: two codes share a message exactly when they share a class. */
  lemma LocationErrorMessagesDistinct(c1: int, c2: int)
    ensures LocationErrorMessage(c1) == LocationErrorMessage(c2) <==> ErrorKind(c1) == ErrorKind(c2)
  {
    var m1, m2 := LocationErrorMessage(c1), LocationErrorMessage(c2);
    if m1 == m2 {
      assert ErrorAdvice(ErrorKind(c1)) == m1[|ErrorPrefix|..] == ErrorAdvice(ErrorKind(c2));
    }
  }

  /**
   * Choosing an incident in the activity feed and clicking the map point of
   * the same incident select the same record, when ids are unique.
   */
  lemma FeedAndMapSelectAlike(s: seq<Incident>, toIso: int -> string, k: nat)
    requires UniqueIds(s) && k < |s|
    ensures var x := ActivitySidebar.SortByTimestampDesc(s)[k];
            exists m :: 0 <= m < |s| && MapView.ResolveClick(s, [MapView.ToFeatures(s, toIso)[m]]) == Some(x)
  {
    var x := ActivitySidebar.SortByTimestampDesc(s)[k];
    assert x in multiset(s);
    var m :| 0 <= m < |s| && s[m] == x;
    var clicked := [MapView.ToFeatures(s, toIso)[m]];
    MapView.ClickOnFeatureSelectsIncident(s, toIso, m, clicked);
    assert MapView.ResolveClick(s, clicked) == Some(x);
  }

  /** The page's state: the list, the two overlay flags and the selection, and the report form it renders. */
  class Home {
    var incidents: seq<Incident>
    var isReportModalOpen: bool
    var isSidebarOpen: bool
    var selectedIncident: Option<Incident>
    const form: ReportForm

    /** The selected incident, if any, is one of the list. */
    ghost predicate SelectionListed()
      reads this
    {
      selectedIncident.Some? ==> selectedIncident.value in incidents
    }

    /** The first render together with the mount effect that loads the seed list. */
    constructor (seed: seq<Incident>)
      ensures incidents == seed
      ensures !isReportModalOpen && !isSidebarOpen && selectedIncident.None?
      ensures fresh(form) && form.formData == InitialDraft()
      ensures SelectionListed()
    {
      incidents := seed;
      isReportModalOpen := false;
      isSidebarOpen := false;
      selectedIncident := None;
      form := new ReportForm();
    }

    /** The count bubble for the current list. */
    function Badge(): Option<string>
      reads this
    {
      BadgeLabel(|incidents|)
    }

    /** `handleReportSubmit`: the new incident goes in front, the rest keep their order and values. */
    method HandleReportSubmit(report: ReportData, id: string, now: int)
      modifies this
      ensures incidents == [NewIncident(report, id, now)] + old(incidents)
      ensures isReportModalOpen == old(isReportModalOpen) && isSidebarOpen == old(isSidebarOpen)
      ensures selectedIncident == old(selectedIncident)
      ensures old(SelectionListed()) ==> SelectionListed()
    {
      incidents := [NewIncident(report, id, now)] + incidents;
    }

    /** `handleIncidentClick`: select exactly this incident and close the activity panel. */
    method HandleIncidentClick(incident: Incident)
      modifies this
      ensures selectedIncident == Some(incident) && !isSidebarOpen
      ensures incidents == old(incidents) && isReportModalOpen == old(isReportModalOpen)
    {
      selectedIncident := Some(incident);
      isSidebarOpen := false;
    }

    /** The detail dialog's `onClose`: the selection is cleared. */
    method CloseDetail()
      modifies this
      ensures selectedIncident.None?
      ensures incidents == old(incidents) && isReportModalOpen == old(isReportModalOpen) && isSidebarOpen == old(isSidebarOpen)
      ensures SelectionListed()
    {
      selectedIncident := None;
    }

    /** The activity button. */
    method OpenSidebar()
      modifies this
      ensures isSidebarOpen
      ensures incidents == old(incidents) && isReportModalOpen == old(isReportModalOpen) && selectedIncident == old(selectedIncident)
    {
      isSidebarOpen := true;
    }

    /** The activity panel's `onClose`: only the panel flag changes. */
    method CloseSidebar()
      modifies this
      ensures !isSidebarOpen
      ensures incidents == old(incidents) && isReportModalOpen == old(isReportModalOpen) && selectedIncident == old(selectedIncident)
    {
      isSidebarOpen := false;
    }

    /** The "Report ICE" button. */
    method OpenReportModal()
      modifies this
      ensures isReportModalOpen
      ensures incidents == old(incidents) && isSidebarOpen == old(isSidebarOpen) && selectedIncident == old(selectedIncident)
    {
      isReportModalOpen := true;
    }

    /** The report form's `onClose` (cancel, backdrop, close button): the draft is kept. */
    method CloseReportModal()
      modifies this
      ensures !isReportModalOpen
      ensures incidents == old(incidents) && isSidebarOpen == old(isSidebarOpen) && selectedIncident == old(selectedIncident)
    {
      isReportModalOpen := false;
    }

    /**
     * "Submit Report" pressed in the form: when the required fields are
     * filled, the draft becomes a new incident in front of the list, the
     * draft is reset and the form closes; otherwise nothing changes.
     */
    method SubmitReport(id: string, now: int) returns (submitted: bool)
      modifies this, form
      ensures submitted <==> RequiredFilled(old(form.formData))
      ensures submitted ==> incidents == [NewIncident(old(form.formData), id, now)] + old(incidents)
      ensures submitted ==> !isReportModalOpen && form.formData == InitialDraft()
      ensures !submitted ==> incidents == old(incidents) && isReportModalOpen == old(isReportModalOpen)
      ensures !submitted ==> form.formData == old(form.formData)
      ensures isSidebarOpen == old(isSidebarOpen) && selectedIncident == old(selectedIncident)
      ensures old(SelectionListed()) ==> SelectionListed()
    {
      var data := form.RequestSubmit();
      submitted := data.Some?;
      if submitted {
        HandleReportSubmit(data.value, id, now);
        CloseReportModal();
      }
    }

    /** Choosing row `k` of the activity feed, which lists the incidents newest first. */
    method SelectFromFeed(k: nat)
      requires k < |incidents|
      modifies this
      ensures selectedIncident == Some(ActivitySidebar.SortByTimestampDesc(old(incidents))[k]) && !isSidebarOpen
      ensures incidents == old(incidents) && isReportModalOpen == old(isReportModalOpen)
      ensures SelectionListed()
    {
      var sorted := ActivitySidebar.SortByTimestampDesc(incidents);
      assert sorted[k] in multiset(incidents);
      HandleIncidentClick(sorted[k]);
    }

    /** A click on the map's point layer; nothing happens unless it resolves to an incident. */
    method ClickMap(clicked: seq<MapView.Feature>)
      modifies this
      ensures var r := MapView.ResolveClick(old(incidents), clicked);
              && (r.Some? ==> selectedIncident == r && !isSidebarOpen)
              && (r.None? ==> selectedIncident == old(selectedIncident) && isSidebarOpen == old(isSidebarOpen))
      ensures incidents == old(incidents) && isReportModalOpen == old(isReportModalOpen)
      ensures old(SelectionListed()) ==> SelectionListed()
    {
      var r := MapView.ResolveClick(incidents, clicked);
      if r.Some? {
        HandleIncidentClick(r.value);
      }
    }

    /** Choosing entry `k` of the text list shown when the map cannot load. */
    method SelectFromMapFallback(k: nat)
      requires k < |incidents|
      modifies this
      ensures selectedIncident == Some(old(incidents)[k]) && !isSidebarOpen
      ensures incidents == old(incidents) && isReportModalOpen == old(isReportModalOpen)
      ensures SelectionListed()
    {
      HandleIncidentClick(MapView.FallbackList(incidents)[k].incident);
    }
  }

  /**
   * An end-to-end walk through the page: two seed incidents, a detention
   * report with no coordinates, and what the list, the badge and the feed
   * then show. The feature collection is built from the new list, though a map
   * that has already loaded never receives it.
   */
  method ReportScenario(t: int, now: int, toIso: int -> string)
    requires t <= now
  {
    var a := Incident("1", 34.05, -118.24, Raid, "raid", t, "A");
    var b := Incident("2", 34.10, -118.30, Checkpoint, "checkpoint", t - 60000, "B");
    var home := new Home([a, b]);
    home.OpenReportModal();
    home.form.SelectType(Detention);
    home.form.SetDescription("x");
    home.form.SetLocation("y");
    var ok := home.SubmitReport("3", now);
    assert ok;
    var c := home.incidents[0];
    assert home.incidents == [c, a, b];
    assert c.kind == Detention && c.lat == DefaultLat && c.lng == DefaultLng;
    ActivitySidebar.NewestFirst(c, [a, b]);
    assert ActivitySidebar.SortByTimestampDesc(home.incidents)[0] == c;
    assert |MapView.ToFeatures(home.incidents, toIso)| == 3;
    assert home.Badge() == Some("3");
    assert !home.isReportModalOpen && home.form.formData == InitialDraft();
  }
}
