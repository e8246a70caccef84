# Interactive map widget: marker bookkeeping and outcome selection

The widget shows a Leaflet map in a browser page. The user can:

- search for a place by name;
- locate themselves through the browser's geolocation;
- drop custom markers at the map centre and remove each one with a click;
- clear all markers at once;
- click the map to get the address of a point.

Everything except the marker bookkeeping and the choice of outcome is Leaflet, DOM or network plumbing. This project models those two parts of `script.js`.

- `MarkerList` (`marker_list.dfy`) holds the list operations on the global `markers` array. `push` is sequence append. `RemoveFirst` is the specification of the click handler's scan-and-`splice` loop, which removes the first entry identical to the clicked marker. Lemmas relate the two.
- `Outcomes` (`outcomes.dfy`) holds the mappings that are expressions only:
  - which branch a search takes (empty term, found, not found, HTTP error, unparsable body);
  - the message for a geolocation error code;
  - the text `fetchAddress` resolves to;
  - the wording of every alert.
- `MapController` (`map_controller.dfy`) holds the handlers as methods of a `Controller` class with four fields:
  - `markers: seq<Marker>`, the global `markers` array;
  - `current: Marker?`, the `currentLocationMarker` slot;
  - `layers: set<Marker>`, the markers on the map, an abstraction of `addTo(map)` and `map.removeLayer`;
  - `center`, the map view's centre, which searches and locates move, and which the user moves by dragging or zooming (`Pan`).

  A Leaflet marker is a `Marker` object with constant fields, so JavaScript's `===` is Dafny object identity. The invariant `Valid` says three things. The map shows exactly the tracked markers plus the location marker. No marker is tracked twice. The location marker is never tracked. Every handler keeps this invariant.

The browser and the servers are parameters:

- the search term;
- the search reply: its HTTP status, and its body as parsed or absent when `JSON.parse` throws;
- the answer to each `confirm`;
- whether `navigator.geolocation` exists, and the position or error code it reports;
- the reverse-lookup reply.

Alerts are returned as `Outcomes.Alert` values, and `Outcomes.Text` gives their wording.

Behaviour of the code worth knowing:

- The empty-term check (`script.js:42`) does not trim, so a whitespace-only term is searched.
- A successful locate alerts "Current location found!" without the accuracy. The accuracy appears only in the location marker's popup.
- Only markers made by `addMarker` get a click-to-remove handler. Search markers cannot be removed one by one.

## Model

| member | source | states |
|---|---|---|
| MarkerList.RemoveFirst | script.js:145-150 | the splice result: unchanged when the marker is absent, one element shorter when it is present, and it holds nothing that was not there before |
| MarkerList.RemoveFirstAt | script.js:145-150 | when the scan stops at the first index `i` holding the marker, the result is the list with only index `i` cut out; entries before and after keep their order |
| MarkerList.RemoveFirstOfAppended | script.js:139-154 | round trip: pushing a new marker and then removing its first occurrence gives back exactly the earlier list |
| MarkerList.RemoveFirstDistinct | script.js:145-150 | in a list without duplicates, the removal takes the marker out completely and keeps the list without duplicates |
| Outcomes.Search | script.js:41-76 | the search branch as an if-and-only-if per outcome: rejected exactly for the empty term (no trimming); error exactly for status other than 200; nothing when the body does not parse; not found exactly for an empty list; found exactly for a non-empty list, and then the place is `data[0]` |
| Outcomes.SearchAlert | script.js:42-75 | a search raises no alert exactly when the reply's body does not parse; a found place's alert reads "Location found: " followed by its name |
| Outcomes.SearchAlertTellsOutcome | script.js:42-75 | searches that raise the same `Alert` value had the same kind of outcome (empty term, found, not found, error); found places that raise the same `Alert` value have the same name |
| Outcomes.SearchIgnoresLaterResults | script.js:57-58 | results after the first never change a search's outcome |
| Outcomes.GeoErrorMessage | script.js:106-122 | every geolocation error message begins "Unable to get your location. " and has more after it; every code other than the three known ones gets "An unknown error occurred." |
| Outcomes.GeoErrorMessageDistinguishesCauses | script.js:109-122 | two error codes get the same message exactly when they are the same cause (denied, unavailable, timed out, other) |
| Outcomes.FetchAddress | script.js:174-188 | the address lookup never fails and never yields empty text. A named non-empty `display_name` is returned as is. An answered lookup with no name, or an empty one, gives "Address not found". A network failure, a non-ok response or an unparsable body gives "Unable to fetch address" |
| Outcomes.Text | script.js:37-169 | every alert has non-empty wording; a geolocation error's wording begins "Unable to get your location. "; after its 16-character prefix, a "Location found" alert's wording is the place's name |
| MapController.Controller.Valid | script.js:3-4 | under the bookkeeping invariant, every tracked marker is on the map; the location marker is on the map and not tracked; the location markers on the map are exactly the current one |
| MapController.Controller.constructor | script.js:2-11 | the initial state: no markers, no location marker, an empty layer set, the initial centre (14.09, 120.68); the invariant holds |
| MapController.Controller.SearchLocation | script.js:40-80 | a found place becomes the centre, and exactly one new marker labelled with its name is appended to `markers` and added to the map. Every other outcome changes nothing. The alert matches the outcome. The invariant is kept |
| MapController.Controller.GetCurrentLocation | script.js:82-132 | without geolocation, or on an error code, nothing changes and the matching alert is returned. On success the old location marker leaves the map and a fresh one at the reported position is added and stored, so exactly one location marker is on the map. The centre moves there and `markers` is untouched |
| MapController.Controller.Pan | script.js:11 | a drag or zoom of the map (allowed by default by `L.map`) moves the centre that `getCenter()` later reports; markers, layers and the location marker stay as they were and the invariant is kept |
| MapController.Controller.AddMarker | script.js:134-156 | a fresh removable marker at the centre is appended at the end of `markers` and added to the map; earlier entries, the location marker and the centre are unchanged; the alert names the given coordinate texts |
| MapController.Controller.ClickMarker | script.js:142-152 | a confirmed click on a removable marker removes its layer and exactly its first entry in `markers` (order kept); a declined click, or a click on another kind of marker, changes nothing |
| MapController.Controller.ClearMarkers | script.js:158-171 | on an empty list: "No markers to clear!" and no change. Confirmed on a non-empty list: every tracked marker's layer is removed, `markers` becomes empty, and only the location marker stays on the map. Declined: no alert and no change |
| MapController.AddThenRemove | script.js:139-154 | adding a marker and then confirming its removal restores `markers` and the map's layers exactly |
| MapController.PanThenAddMarker | script.js:134-139 | after the user moves the map, `addMarker` places its marker at the new centre and appends it to `markers` and the map |
| MapController.ClearTwice | script.js:158-171 | after a confirmed clear, a second clear reports "No markers to clear!"; the list ends empty and the location marker and the centre are unchanged |

## Left out

- Leaflet rendering is not modelled: tiles, popups and their HTML, `openPopup`, zoom levels. The map is only the set of markers on it plus its centre; the user's drags and zooms enter only as the new centre.
- The map-click handler (`script.js:18-35`) only builds popup text. Its `.catch` cannot be reached, because `fetchAddress` already catches every error. Only `fetchAddress` itself is modelled.
- Networking is not modelled: `XMLHttpRequest`, `fetch` and URL encoding. Replies enter as parameters. Callbacks for `readyState` values other than 4 do nothing and are omitted.
- `JSON.parse` and `response.json()` are foreign calls. Their result enters as a parameter, or as None when they throw. In the search callback that exception is not caught, and the model shows it as "no alert, no change".
- Outcomes.Search: the parsed search body is taken to be an array of places. A parsed non-array body such as `{}` has no `length`, so the source takes the "Location not found" branch; the model cannot express such a body.
- Outcomes.FetchAddress: `display_name` is taken to be a string or absent/null. A non-string truthy value would be passed through in JavaScript, and the model does not capture that. A body that parses to `null` makes `data.display_name` throw, which the `.catch` turns into "Unable to fetch address"; the model takes such a body as `body == None`, which gives the same text.
- Float handling is not modelled: `parseFloat`, `toFixed(6)`, `accuracy.toFixed(0)`. Coordinates are abstract reals, and the six-decimal texts in the "Marker added" alert are parameters.
- MapController.Controller.AddMarker: the marker is placed at the centre itself. The source places it at the centre rounded to six decimals, and that rounding is not captured.
- Browser capabilities enter as inputs: `alert` becomes a returned value, and `confirm` and geolocation are inputs. The geolocation options (high accuracy, 10000 ms timeout, 60000 ms maximum age) are not modelled.
- MapController.Controller.constructor: the "Map initialized successfully!" alert has an `Alert` value, but the constructor does not return it.
- Asynchronous ordering is not modelled. Each handler runs to completion with its reply. A slow, stale response that overwrites a newer one is a race between callbacks, and concurrency is out of scope.
- The `console.error` log in `fetchAddress` (`script.js:186`) is diagnostic output only and is not modelled.
- The wording of the two `confirm` prompts is not modelled: "Remove this marker?" (`script.js:143`), and "Remove all " + the marker count + " markers?" (`script.js:164`). Only the user's answer enters, as a boolean parameter.
