# icemap incident store — a Dafny model

icemap is a single-page map on which people report immigration-enforcement
activity: checkpoints, raids, detentions and other incidents. This project
models the core that sits between the incident list and the screen:

- **The incident store and selection of the page** (`Page.Home`).
  - A submitted report becomes a new incident at the front of the list.
  - Missing or zero coordinates fall back to New York.
  - Choosing an incident in the feed, on the map or in the map's fallback list selects it and closes the activity panel.
  - Closing the detail dialog clears the selection.
  - The activity button shows a count badge ("1".."9", then "9+").
  - A failed "centre on my location" produces a fixed error message.
- **The report form** (`ReportModal.ReportForm`).
  - Its draft starts as a checkpoint with empty text and no coordinates.
  - The type buttons, the location input and the description box each replace one field.
  - A detected position writes both coordinates and overwrites the location text.
  - Submitting hands the draft up unchanged and resets it. The browser's `required` check on location and description gates the submit.
- **The map bridge** (`MapView`).
  - The GeoJSON point features, one per incident in list order, with coordinates `[lng, lat]`.
  - The point colour table.
  - The resolution of a clicked feature to the first incident with its id.
  - The text list shown when the map cannot load.
- **The activity feed and the detail dialog** (`ActivitySidebar`, `IncidentDetail`).
  - A stable newest-first sort of a copy of the list.
  - Elapsed-time labels, floored to whole hours and minutes, in abbreviated ("5m ago") and full ("5 minutes ago") wording.
  - The colour and icon tables.
  - The "<Type> Reported" badge.

Two modules are shared. `Text` holds decimal rendering, parsing and ASCII upper-casing. `Elapsed` holds the floor-division arithmetic that both `getTimeAgo` helpers use, the two wordings and their parsers.

Timestamps are integers (milliseconds since the epoch). For the positive divisors used here, Dafny's `/` equals `Math.floor` of the quotient, negative differences included. Coordinates are reals. Values taken from outside the app are parameters:
- the clock (`now`);
- the new incident's id (`Date.now().toString()`);
- `toISOString`;
- the `toFixed(4)` texts of a detected position;
- the answer of the geolocation service.

The page state is the class `Page.Home`. Its methods change exactly the fields the handlers set; the incident list is a `seq` they reassign. The form is the class `ReportModal.ReportForm`, whose draft is a datatype value replaced by every handler. The projections are functions, specified by what they mean and related by lemmas:
- label parsers that invert the labels;
- a multiset, sortedness and per-timestamp order for the sort;
- first-match witnesses for the id lookup.

A detected position overwrites the location text even when the user has typed one (`ReportModal.ReportForm.DetectLocation`).

## Model

| member | source | states |
|---|---|---|
| Incident.FromNameOfName | src/components/Map.tsx:19 | each of the four type strings reads back as its type, so distinct types have distinct strings |
| Incident.Name | src/components/Map.tsx:19 | the run-time string of each type; injective by `Incident.FromNameOfName` |
| Text.ParseNatToString | src/components/ActivitySidebar.tsx:30-31 | the decimal text printed for a count reads back as that count (no leading zeros, at least one digit) |
| Text.NatToString | src/components/ActivitySidebar.tsx:30-31 | the decimal text a template literal prints for a count: at least one digit, all digits, a leading `0` only for zero, one digit exactly below ten; it reads back by `Text.ParseNatToString` |
| Text.DigitPrefixOfConcat | src/components/ActivitySidebar.tsx:30-31 | a count's digits followed by a unit that starts with a non-digit split back into exactly that count text and that unit |
| Text.Capitalize | src/components/IncidentDetailModal.tsx:81 | the result has the input's length, its first character upper-cased and the rest unchanged; the empty string stays empty |
| Elapsed.Classify | src/components/ActivitySidebar.tsx:26-32 | hours are reported exactly when the difference is at least one hour, "just now" exactly when it is under one minute (negative differences included); the count is the floor of the difference in hours, or in minutes and then between 1 and 59 |
| Elapsed.ShortLabel | src/components/ActivitySidebar.tsx:30-32 | the abbreviated wording `${hours}h ago`, `${minutes}m ago` or "Just now"; inverted by `Elapsed.ShortLabelRoundTrip` |
| Elapsed.LongLabel | src/components/IncidentDetailModal.tsx:49-51 | the full wording with the plural `s` for counts above one; inverted by `Elapsed.LongLabelRoundTrip`, plural rule in `Elapsed.LongLabelPlural` |
| Elapsed.ShortLabelRoundTrip | src/components/ActivitySidebar.tsx:30-32 | every abbreviated label ("{h}h ago", "{m}m ago", "Just now") parses back to the elapsed amount it was printed from |
| Elapsed.LongLabelRoundTrip | src/components/IncidentDetailModal.tsx:49-51 | every full-word label parses back to the elapsed amount it was printed from |
| Elapsed.LabelsDistinguishElapsed | src/components/IncidentDetailModal.tsx:49-51 | two different elapsed amounts never get the same label, in either wording |
| Elapsed.LongLabelPlural | src/components/IncidentDetailModal.tsx:49-50 | the full-word label is the count, the unit, and "s ago" exactly when the count exceeds one, otherwise " ago" |
| ActivitySidebar.TypeColorTable | src/components/ActivitySidebar.tsx:15-22 | the feed dot colour is the yellow default exactly for `other` and for every unknown string, and distinct types get distinct colours |
| ActivitySidebar.TypeColor | src/components/ActivitySidebar.tsx:15-22 | the feed's colour switch with its yellow default; its table is stated by `ActivitySidebar.TypeColorTable` |
| ActivitySidebar.TimeAgo | src/components/ActivitySidebar.tsx:24-33 | the feed's label parses back to the floored elapsed amount between now and the report time |
| ActivitySidebar.TimeAgoExamples | src/components/ActivitySidebar.tsx:24-33 | 30 s ago gives "Just now", 5 min "5m ago", 2 h "2h ago", and a report from the future "Just now" |
| ActivitySidebar.Insert | src/components/ActivitySidebar.tsx:35 | inserting one incident adds exactly it to the multiset and keeps a newest-first list newest-first |
| ActivitySidebar.SortByTimestampDesc | src/components/ActivitySidebar.tsx:35 | the feed order is a permutation of the list (same multiset, same length) with timestamps never increasing |
| ActivitySidebar.InsertKeepsTies | src/components/ActivitySidebar.tsx:35 | an insertion puts the new incident first among those with its timestamp and keeps the others of each timestamp in order |
| ActivitySidebar.SortIsStable | src/components/ActivitySidebar.tsx:35 | for every timestamp, the incidents carrying it appear in the feed in the order of the list (a stable sort) |
| ActivitySidebar.NewestFirst | src/components/ActivitySidebar.tsx:35 | an incident at least as recent as all others, such as a report just prepended, heads the feed, ties included |
| ActivitySidebar.SortKeepsSorted | src/components/ActivitySidebar.tsx:35 | sorting a list that is already newest-first leaves it unchanged |
| ActivitySidebar.Entry | src/components/ActivitySidebar.tsx:74-99 | a row holds its incident, the dot colour of the incident's type, and the abbreviated label that parses back to the floored elapsed amount |
| ActivitySidebar.Render | src/components/ActivitySidebar.tsx:35-107 | nothing is shown when closed, the "no incidents" notice exactly when open with an empty list, otherwise one row per incident, newest first, holding the same incidents; row k is the entry of the k-th incident of the stable sort, with its type colour and abbreviated label |
| IncidentDetail.TypeStylesDistinguishTypes | src/components/IncidentDetailModal.tsx:14-30 | icon and colour class each tell the four types apart, and every unknown string gets the default icon and the default colour |
| IncidentDetail.TypeIcon | src/components/IncidentDetailModal.tsx:14-21 | the icon switch with the pin default; its table is stated by `IncidentDetail.TypeStylesDistinguishTypes` |
| IncidentDetail.TypeColor | src/components/IncidentDetailModal.tsx:23-30 | the colour-class switch with the yellow default; its table is stated by `IncidentDetail.TypeStylesDistinguishTypes` |
| IncidentDetail.TimeAgo | src/components/IncidentDetailModal.tsx:43-52 | the dialog's label parses back to the floored elapsed amount between now and the report time |
| IncidentDetail.TimeAgoExamples | src/components/IncidentDetailModal.tsx:43-52 | singular and plural wording: "1 minute ago", "5 minutes ago", "1 hour ago" (one hour and 1 ms), "2 hours ago", and "Just now" under a minute or for a future report |
| IncidentDetail.ReportedBadge | src/components/IncidentDetailModal.tsx:81 | the badge is the type text with its first character upper-cased and the rest unchanged, followed by " Reported" |
| IncidentDetail.ReportedBadgeOfType | src/components/IncidentDetailModal.tsx:81 | the badge of each type is "Checkpoint Reported", "Raid Reported", "Detention Reported" or "Other Reported" |
| IncidentDetail.BadgeMatchesFormLabel | src/components/ReportModal.tsx:84-89 | the dialog's badge names an incident's type with the label of the form button that chose that type |
| IncidentDetail.Render | src/components/IncidentDetailModal.tsx:12-81 | no dialog without a selection; otherwise the dialog shows that incident with the icon and colour class of its type, its type badge and its elapsed label |
| MapView.ToFeatures | src/components/Map.tsx:121-134 | one feature per incident in list order; feature k has coordinates `[lng, lat]` of incident k and carries its id, type string, description, location and ISO timestamp |
| MapView.ToFeature | src/components/Map.tsx:121-133 | the feature of one incident; its fields are stated per index by `MapView.ToFeatures` |
| MapView.FeaturesKeepIds | src/components/Map.tsx:121-134 | the features' ids are the incidents' ids, in the same order |
| MapView.DataSource | src/components/Map.tsx:110-136 | no source is installed before the map exists or for an empty list; otherwise the installed collection is exactly `MapView.ToFeatures` of the list, one feature per incident in order with `[lng, lat]` and the full property bag, carrying the list's ids one for one |
| MapView.PointColorTable | src/components/Map.tsx:196-202 | checkpoint, raid and detention get three distinct colours; `other` and every unknown string get the fallback `#f39c12` |
| MapView.PointColor | src/components/Map.tsx:196-202 | the `circle-color` case expression with its `#f39c12` fallback; its table is stated by `MapView.PointColorTable` |
| MapView.FindById | src/components/Map.tsx:219 | no result exactly when no incident has the id; otherwise the result is the incident at the first position holding the id |
| MapView.ResolveClick | src/components/Map.tsx:216-224 | no incident when no feature was clicked or no incident has the clicked id; otherwise the incident at the first position holding the clicked id, as `find` returns it |
| MapView.FindByIdOfListed | src/components/Map.tsx:219 | looking up the id of incident k finds an incident with that id at or before position k, and incident k itself when ids are unique |
| MapView.ClickOnFeatureSelectsIncident | src/components/Map.tsx:216-224 | a click on the feature drawn for incident k resolves to an incident with k's id at or before k, and to incident k when ids are unique |
| MapView.FallbackList | src/components/Map.tsx:263-280 | the fallback list has one entry per incident, in list order |
| MapView.FallbackMatchesFeedColours | src/components/Map.tsx:270-274 | the fallback list colours every type string as the activity feed does, the default arm included |
| MapView.FallbackDotClass | src/components/Map.tsx:270-274 | the nested conditional of the fallback list's dot; equal to the feed colour by `MapView.FallbackMatchesFeedColours` |
| ReportModal.InitialDraft | src/components/ReportModal.tsx:21-25 | the draft starts as a checkpoint with empty description and location and no coordinates |
| ReportModal.TypeButtons | src/components/ReportModal.tsx:84-102 | four buttons for four distinct types, each highlighted exactly when it is the draft's type |
| ReportModal.ExactlyOneTypeActive | src/components/ReportModal.tsx:94-97 | exactly one type button is highlighted |
| ReportModal.Render | src/components/ReportModal.tsx:57-102 | nothing is shown when closed; otherwise the form shows the draft's location and description and exactly the four type buttons of `ReportModal.TypeButtons`, the draft's type highlighted |
| ReportModal.ReportForm.constructor | src/components/ReportModal.tsx:21-25 | a new form holds the initial draft |
| ReportModal.ReportForm.SelectType | src/components/ReportModal.tsx:93 | a type button changes only the draft's type |
| ReportModal.ReportForm.SetLocation | src/components/ReportModal.tsx:112 | typing in the location input changes only the location |
| ReportModal.ReportForm.SetDescription | src/components/ReportModal.tsx:132 | typing in the description changes only the description |
| ReportModal.ReportForm.DetectLocation | src/components/ReportModal.tsx:39-55 | a position sets both coordinates and overwrites the location with "lat, lng"; an error or missing support leaves the draft unchanged |
| ReportModal.ReportForm.HandleSubmit | src/components/ReportModal.tsx:27-37 | the draft is handed up unchanged and the form returns to the initial draft, coordinates dropped |
| ReportModal.ReportForm.RequestSubmit | src/components/ReportModal.tsx:109-137 | a submit goes through exactly when location and description are non-empty, handing up the draft and resetting it; otherwise nothing changes |
| ReportModal.RequiredFilled | src/components/ReportModal.tsx:115-136 | the two `required` inputs are filled; it gates the submit in `ReportModal.ReportForm.RequestSubmit` |
| Page.NewIncident | src/app/page.tsx:496-504 | type, description and location are copied; the id and time are the given ones; an absent or zero latitude becomes 40.7128 and longitude -74.006, so neither coordinate is ever zero |
| Page.OrFallback | src/app/page.tsx:498-499 | the logical-or fallback on an optional number: an absent or zero value gives the fallback; its effect on the new incident is stated by `Page.NewIncident` |
| Page.BadgeLabel | src/app/page.tsx:658-665 | no badge for an empty list, the single-digit count for 1 to 9, and "9+" above 9 |
| Page.Home.Badge | src/app/page.tsx:658-664 | the badge of the current list; its cases are stated by `Page.BadgeLabel` |
| Page.LocationErrorMessage | src/app/page.tsx:553-568 | the message is the fixed prefix followed by the advice of the error's class (permission denied, unavailable, timeout, or the default) |
| Page.LocationErrorMessagesDistinct | src/app/page.tsx:555-568 | two error codes give the same message exactly when they fall in the same class |
| Page.ErrorKind | src/app/page.tsx:555-568 | the `switch (error.code)` arms with the default; messages differ exactly across its classes by `Page.LocationErrorMessagesDistinct` |
| Page.ErrorAdvice | src/app/page.tsx:556-567 | the four advice texts appended to the prefix; see `Page.LocationErrorMessage` |
| Page.FeedAndMapSelectAlike | src/app/page.tsx:690-694 | with unique ids, every incident chosen from the feed is also what a click on some map point selects |
| Page.Home.constructor | src/app/page.tsx:466-483 | the page starts with the seed list, both overlays closed, no selection, and a fresh form holding the initial draft |
| Page.Home.HandleReportSubmit | src/app/page.tsx:495-508 | the new incident is prepended; the old incidents keep their order and values and nothing else changes |
| Page.Home.HandleIncidentClick | src/app/page.tsx:510-513 | the selection becomes exactly that incident and the activity panel closes; the list and the form flag are unchanged |
| Page.Home.CloseDetail | src/app/page.tsx:699 | the selection is cleared and nothing else changes |
| Page.Home.OpenSidebar | src/app/page.tsx:653 | the activity panel opens and nothing else changes |
| Page.Home.CloseSidebar | src/app/page.tsx:692 | only the activity panel flag is cleared |
| Page.Home.OpenReportModal | src/app/page.tsx:673 | the report form opens and nothing else changes |
| Page.Home.CloseReportModal | src/app/page.tsx:686 | only the report form flag is cleared; the draft is kept |
| Page.Home.SubmitReport | src/app/page.tsx:684-688 | with both required fields filled, the draft becomes a new incident at the front, the draft resets and the form closes; otherwise the list, the form flag and the draft are unchanged; a listed selection stays listed |
| Page.Home.SelectFromFeed | src/components/ActivitySidebar.tsx:74-77 | choosing row k selects the k-th incident of the newest-first order, a member of the list, and leaves the list itself in its order |
| Page.Home.ClickMap | src/components/Map.tsx:216-224 | a click that resolves selects that incident and closes the panel; one that does not changes nothing |
| Page.Home.SelectFromMapFallback | src/components/Map.tsx:263-266 | choosing entry k of the fallback list selects incident k |

## Left out

- Map construction, the style, `addLayer`, the heatmap and circle paint interpolations, hover cursors and the zoom, fly-to and resize controls: library rendering state and floating-point styling.
- MapView.DataSource: describes the collection built for the current list. The effect only passes it to a `load` listener (src/components/Map.tsx:113), so once the map has loaded, later lists never reach it and new reports do not appear as points.
- Page.Home.ClickMap: resolves against the current list. The code registers the click handler inside a `load` listener (src/components/Map.tsx:113). The handler therefore sees the list of the render that registered it. After the first load, a later list is not installed as a data source. The model does not capture this timing.
- The geolocation service, the HTTPS and host-name checks, `alert`, `console` and `setTimeout` are I/O. Their outcomes are parameters: `GeoOutcome` for the form, an error code for the page.
- The formatting functions `toFixed(4)`, `toISOString`, `toLocaleString` and `toLocaleTimeString` are left opaque. The first two enter as given strings or as a parameter function. The dialog's coordinates (`toFixed(4)`) and its `toLocaleString` date, and the fallback list's `toLocaleTimeString` time, are not modelled.
- The id of a new incident is a parameter. The code derives it from the clock, and nothing guarantees its uniqueness. `UniqueIds` is therefore a hypothesis of the lemmas that need it, not an invariant.
- The 50-incident seed list is the constructor's parameter, not data in the model.
- Layout, CSS other than the mapped colour classes, the search box (its text is never used), and the settings, verify and upload stubs.
- Coordinates are reals. NaN and the floating-point spelling of `40.7128` are not modelled.
- Text.Capitalize: upper-cases ASCII letters only. JavaScript's `toUpperCase` covers all of Unicode. Every type string is lower-case ASCII.
- ActivitySidebar.SortByTimestampDesc: the comparator's subtraction is exact on integers. The doubles of the code are exact for every timestamp before the year 287396.
- ActivitySidebar.Render: copying the list before sorting is implicit, because sequences are values. `Page.Home.SelectFromFeed` shows that the page's list keeps its order.
