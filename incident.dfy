/**
 * The incident record shared by every view (`IncidentData` in Map.tsx) and
 * its closed set of incident types.
 */
module Incident {

  datatype Option<T> = None | Some(value: T)

  /** The string-literal union `'checkpoint' | 'raid' | 'detention' | 'other'`. */
  datatype IncidentType = Checkpoint | Raid | Detention | Other

  /** The string a value of the union is at run time. */
  function Name(t: IncidentType): string {
    match t
    case Checkpoint => "checkpoint"
    case Raid => "raid"
    case Detention => "detention"
    case Other => "other"
  }

  function FromName(s: string): Option<IncidentType> {
    if s == "checkpoint" then Some(Checkpoint)
    else if s == "raid" then Some(Raid)
    else if s == "detention" then Some(Detention)
    else if s == "other" then Some(Other)
    else None
  }

  /** Every type's run-time string reads back as that type, so `Name` is injective. */
  lemma FromNameOfName(t: IncidentType)
    ensures FromName(Name(t)) == Some(t)
  {
  }

  /**
   * A reported incident. Coordinates are opaque reals, the timestamp is
   * milliseconds since the epoch (`Date.getTime()`).
   */
  datatype Incident = Incident(
    id: string,
    lat: real,
    lng: real,
    kind: IncidentType,
    description: string,
    timestamp: int,
    location: string)

  /** No two incidents of the list share an `id`. */
  predicate UniqueIds(s: seq<Incident>) {
    forall i, j :: 0 <= i < j < |s| ==> s[i].id != s[j].id
  }
}
