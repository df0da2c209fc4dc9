/**
 * The report form (ReportModal.tsx). Its `formData` state is a draft that
 * every event handler replaces: the type buttons, the location and
 * description inputs, the "detect location" button and the submit handler.
 */
module ReportModal {
  import opened Incident

  /** `ReportData`: coordinates are present only after a successful detection. */
  datatype ReportData = ReportData(
    kind: IncidentType,
    description: string,
    location: string,
    lat: Option<real>,
    lng: Option<real>)

  /** The draft the form starts from and returns to after a submit. */
  function InitialDraft(): (d: ReportData)
    ensures d.kind == Checkpoint && d.description == [] && d.location == []
    ensures d.lat.None? && d.lng.None?
  {
    ReportData(Checkpoint, "", "", None, None)
  }

  /**
   * The outcome of `navigator.geolocation.getCurrentPosition` as the form sees
   * it. A position carries the two `toFixed(4)` texts the label is built from.
   */
  datatype GeoOutcome =
    | Unsupported
    | PositionError(code: int)
    | Position(latitude: real, longitude: real, latitudeText: string, longitudeText: string)

  /** The browser's check of the two `required` inputs before the form's submit event fires. */
  predicate RequiredFilled(d: ReportData) {
    d.location != [] && d.description != []
  }

  /** One button per type, with the type's label and whether it is the highlighted one. */
  datatype TypeButton = TypeButton(kind: IncidentType, text: string, active: bool)

  function TypeButtons(d: ReportData): (bs: seq<TypeButton>)
    ensures |bs| == 4
    ensures forall i, j :: 0 <= i < j < 4 ==> bs[i].kind != bs[j].kind
    ensures forall k :: 0 <= k < 4 ==> (bs[k].active <==> bs[k].kind == d.kind)
  {
    [ TypeButton(Checkpoint, "Checkpoint", d.kind == Checkpoint),
      TypeButton(Raid, "Raid", d.kind == Raid),
      TypeButton(Detention, "Detention", d.kind == Detention),
      TypeButton(Other, "Other", d.kind == Other)]
  }

  /** Exactly one type button is highlighted, the one of the draft's type. */
  lemma ExactlyOneTypeActive(d: ReportData, i: nat, j: nat)
    requires i < 4 && j < 4
    ensures TypeButtons(d)[i].active && TypeButtons(d)[j].active ==> i == j
    ensures exists k :: 0 <= k < 4 && TypeButtons(d)[k].active
  {
    var bs := TypeButtons(d);
    match d.kind
    case Checkpoint => assert bs[0].active;
    case Raid => assert bs[1].active;
    case Detention => assert bs[2].active;
    case Other => assert bs[3].active;
  }

  /** What is on screen: nothing when `isOpen` is false, otherwise the draft and its type buttons. */
  datatype FormView = FormView(buttons: seq<TypeButton>, location: string, description: string)

  function Render(isOpen: bool, d: ReportData): (v: Option<FormView>)
    ensures v.None? <==> !isOpen
    ensures v.Some? ==> v.value.location == d.location && v.value.description == d.description
    ensures v.Some? ==> v.value.buttons == TypeButtons(d)
    ensures v.Some? ==> forall k :: 0 <= k < |v.value.buttons| ==> (v.value.buttons[k].active <==> v.value.buttons[k].kind == d.kind)
  {
    if isOpen then Some(FormView(TypeButtons(d), d.location, d.description)) else None
  }

  /** The form component and its `formData` state. */
  class ReportForm {
    var formData: ReportData

    constructor ()
      ensures formData == InitialDraft()
    {
      formData := InitialDraft();
    }

    /** A type button: only `type` changes. */
    method SelectType(t: IncidentType)
      modifies this
      ensures formData == old(formData).(kind := t)
    {
      formData := formData.(kind := t);
    }

    /** The location input: only `location` changes. */
    method SetLocation(value: string)
      modifies this
      ensures formData == old(formData).(location := value)
    {
      formData := formData.(location := value);
    }

    /** The description textarea: only `description` changes. */
    method SetDescription(value: string)
      modifies this
      ensures formData == old(formData).(description := value)
    {
      formData := formData.(description := value);
    }

    /**
     * `handleLocationDetect` with the answer of the geolocation service. A
     * position sets both coordinates and overwrites `location`, typed text
     * included; an error, or no geolocation support, changes nothing.
     */
    method DetectLocation(outcome: GeoOutcome)
      modifies this
      ensures outcome.Position? ==> formData == old(formData).(
                lat := Some(outcome.latitude),
                lng := Some(outcome.longitude),
                location := outcome.latitudeText + ", " + outcome.longitudeText)
      ensures !outcome.Position? ==> formData == old(formData)
    {
      match outcome
      case Position(la, ln, laText, lnText) =>
        formData := formData.(lat := Some(la), lng := Some(ln), location := laText + ", " + lnText);
      case _ =>
    }

    /**
     * `handleSubmit`: hands the current draft to `onSubmit` unchanged and
     * resets the draft (coordinates dropped). It does no validation of its own.
     */
    method HandleSubmit() returns (submitted: ReportData)
      modifies this
      ensures submitted == old(formData)
      ensures formData == InitialDraft()
    {
      submitted := formData;
      formData := InitialDraft();
    }

    /**
     * Pressing "Submit Report": the `required` location and description inputs
     * block the submit event while empty; otherwise `handleSubmit` runs.
     */
    method RequestSubmit() returns (submitted: Option<ReportData>)
      modifies this
      ensures submitted.Some? <==> RequiredFilled(old(formData))
      ensures submitted.Some? ==> submitted.value == old(formData) && formData == InitialDraft()
      ensures submitted.None? ==> formData == old(formData)
    {
      if RequiredFilled(formData) {
        var data := HandleSubmit();
        submitted := Some(data);
      } else {
        submitted := None;
      }
    }
  }
}
