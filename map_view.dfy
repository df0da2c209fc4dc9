/**
 * The map's bridge between incidents and the rendering engine (Map.tsx): the
 * GeoJSON point features built from the list, the point colour table, the
 * resolution of a clicked feature back to an incident, and the text list shown
 * when the map fails to load.
 */
module MapView {
  import opened Incident
  import ActivitySidebar

  /** The property bag of a feature; `timestamp` is the ISO text of the report time. */
  datatype FeatureProperties = FeatureProperties(
    id: string,
    kind: string,
    description: string,
    timestamp: string,
    location: string)

  /** A GeoJSON `Point` feature; `coordinates` is `[longitude, latitude]`. */
  datatype Feature = Feature(properties: FeatureProperties, coordinates: seq<real>)

  /** One element of `incidents.map(...)`; `toIso` stands for `Date.prototype.toISOString`. */
  function ToFeature(i: Incident, toIso: int -> string): Feature {
    Feature(
      FeatureProperties(i.id, Name(i.kind), i.description, toIso(i.timestamp), i.location),
      [i.lng, i.lat])
  }

  /** The `features` array of the data source: one feature per incident, in list order. */
  function ToFeatures(s: seq<Incident>, toIso: int -> string): (fs: seq<Feature>)
    ensures |fs| == |s|
    ensures forall k :: 0 <= k < |s| ==>
              && fs[k].coordinates == [s[k].lng, s[k].lat]
              && fs[k].properties.id == s[k].id
              && fs[k].properties.kind == Name(s[k].kind)
              && fs[k].properties.description == s[k].description
              && fs[k].properties.location == s[k].location
              && fs[k].properties.timestamp == toIso(s[k].timestamp)
  {
    if s == [] then [] else [ToFeature(s[0], toIso)] + ToFeatures(s[1..], toIso)
  }

  /** The ids carried by a list of features, in order. */
  function FeatureIds(fs: seq<Feature>): (ids: seq<string>)
    ensures |ids| == |fs| && forall k :: 0 <= k < |fs| ==> ids[k] == fs[k].properties.id
  {
    seq(|fs|, k requires 0 <= k < |fs| => fs[k].properties.id)
  }

  function IncidentIds(s: seq<Incident>): (ids: seq<string>)
    ensures |ids| == |s| && forall k :: 0 <= k < |s| ==> ids[k] == s[k].id
  {
    seq(|s|, k requires 0 <= k < |s| => s[k].id)
  }

  /** The projection keeps the ids, one for one and in order. */
  lemma FeaturesKeepIds(s: seq<Incident>, toIso: int -> string)
    ensures FeatureIds(ToFeatures(s, toIso)) == IncidentIds(s)
  {
  }

  /**
   * The feature collection the list effect hands to the map: nothing while
   * the map object does not exist or the list is empty, otherwise one feature
   * per incident. The effect only registers a `load` listener with it, so just
   * the collection of a render before the map's first load is installed.
   */
  function DataSource(mapCreated: bool, incidents: seq<Incident>, toIso: int -> string): (src: Option<seq<Feature>>)
    ensures src.None? <==> !mapCreated || incidents == []
    ensures src.Some? ==> src.value == ToFeatures(incidents, toIso)
    ensures src.Some? ==> |src.value| == |incidents| && FeatureIds(src.value) == IncidentIds(incidents)
  {
    if !mapCreated || |incidents| == 0 then None
    else
      FeaturesKeepIds(incidents, toIso);
      Some(ToFeatures(incidents, toIso))
  }

  /** The `circle-color` case expression of the point layer. */
  function PointColor(kind: string): string {
    if kind == "checkpoint" then "#ff6b35"
    else if kind == "raid" then "#e74c3c"
    else if kind == "detention" then "#c0392b"
    else "#f39c12"
  }

  /** Checkpoint, raid and detention get three distinct colours; everything else the fallback `#f39c12`. */
  lemma PointColorTable(t: IncidentType, u: IncidentType, kind: string)
    ensures PointColor(Name(t)) == PointColor(Name(u)) ==> t == u
    ensures PointColor(Name(t)) == "#f39c12" <==> t == Other
    ensures kind != "checkpoint" && kind != "raid" && kind != "detention" ==> PointColor(kind) == "#f39c12"
  {
  }

  /** `incidents.find(i => i.id === id)`: the first incident carrying `id`, if any. */
  function FindById(s: seq<Incident>, id: string): (r: Option<Incident>)
    ensures r.None? <==> forall k :: 0 <= k < |s| ==> s[k].id != id
    ensures r.Some? ==> exists k :: 0 <= k < |s| && s[k] == r.value && s[k].id == id &&
                                    forall j :: 0 <= j < k ==> s[j].id != id
  {
    if s == [] then None
    else if s[0].id == id then Some(s[0])
    else
      FindById(s[1..], id)
  }

  /**
   * The point layer's click handler: the first clicked feature's `id` looked
   * up in the list; `None` means no `onIncidentClick` call (no feature, or no
   * incident with that id).
   */
  function ResolveClick(s: seq<Incident>, clicked: seq<Feature>): (r: Option<Incident>)
    ensures r.None? <==> clicked == [] || forall k :: 0 <= k < |s| ==> s[k].id != clicked[0].properties.id
    ensures r.Some? ==> r.value in s && r.value.id == clicked[0].properties.id
    ensures r.Some? ==> exists k :: 0 <= k < |s| && s[k] == r.value &&
                                    forall j :: 0 <= j < k ==> s[j].id != clicked[0].properties.id
    ensures clicked != [] ==> r == FindById(s, clicked[0].properties.id)
  {
    if clicked == [] then None else FindById(s, clicked[0].properties.id)
  }

  /**
   * Looking up the id of incident `k` finds an incident with that id no later
   * than `k`, and exactly incident `k` when ids are unique.
   */
  lemma {:induction false} FindByIdOfListed(s: seq<Incident>, k: nat)
    requires k < |s|
    ensures var r := FindById(s, s[k].id);
            r.Some? && r.value.id == s[k].id && exists j :: 0 <= j <= k && s[j] == r.value
    ensures UniqueIds(s) ==> FindById(s, s[k].id) == Some(s[k])
  {
    var id := s[k].id;
    if s[0].id != id {
      FindByIdOfListed(s[1..], k - 1);
      assert s[1..][k - 1] == s[k];
      var j :| 0 <= j <= k - 1 && s[1..][j] == FindById(s, id).value;
    }
  }

  /**
   * Clicking the feature drawn for incident `k` opens an incident with the
   * same id that comes no later in the list, and, when ids are unique,
   * exactly incident `k`.
   */
  lemma {:induction false} ClickOnFeatureSelectsIncident(s: seq<Incident>, toIso: int -> string, k: nat, clicked: seq<Feature>)
    requires k < |s| && clicked != [] && clicked[0] == ToFeatures(s, toIso)[k]
    ensures var r := ResolveClick(s, clicked);
            r.Some? && r.value.id == s[k].id && exists j :: 0 <= j <= k && s[j] == r.value
    ensures UniqueIds(s) ==> ResolveClick(s, clicked) == Some(s[k])
  {
    assert clicked[0].properties.id == s[k].id;
    FindByIdOfListed(s, k);
  }

  /** A button of the text list shown when the map cannot load. */
  datatype FallbackEntry = FallbackEntry(incident: Incident, dotClass: string)

  /** The dot colour of a fallback entry (the nested conditional on `incident.type`). */
  function FallbackDotClass(kind: string): string {
    if kind == "checkpoint" then "bg-orange-500"
    else if kind == "raid" then "bg-red-500"
    else if kind == "detention" then "bg-red-700"
    else "bg-yellow-500"
  }

  /** One entry per incident, in list order. */
  function FallbackList(s: seq<Incident>): (entries: seq<FallbackEntry>)
    ensures |entries| == |s|
    ensures forall k :: 0 <= k < |s| ==> entries[k].incident == s[k]
  {
    seq(|s|, k requires 0 <= k < |s| => FallbackEntry(s[k], FallbackDotClass(Name(s[k].kind))))
  }

  /** The fallback list colours every type as the activity feed does, the default arm included. */
  lemma FallbackMatchesFeedColours(s: seq<Incident>, kind: string)
    ensures FallbackDotClass(kind) == ActivitySidebar.TypeColor(kind)
    ensures forall k :: 0 <= k < |s| ==> FallbackList(s)[k].dotClass == ActivitySidebar.TypeColor(Name(s[k].kind))
  {
  }
}
