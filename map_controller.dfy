/** The state the widget keeps between user actions and the handlers that
    change it: the list of tracked markers, the one current-location marker,
    and the set of layers on the map (what Leaflet's `addTo(map)` adds and
    `map.removeLayer` takes away). Everything a browser or server would answer
    enters as a parameter: the search term, the search reply, the answer to
    `confirm`, whether geolocation exists and what it reported. */
module MapController {
  import opened MarkerList
  import opened Outcomes

  /** How a marker came to be, which decides what clicking it does. */
  datatype MarkerKind =
    | SearchResult(displayName: string) // placed by a successful search
    | Custom                            // placed by `addMarker`; removable by a click
    | UserLocation                      // the current-location marker

  /** A Leaflet marker. Markers are compared by identity (`===`), which is the
      identity of the Dafny object. */
  class Marker {
    const kind: MarkerKind
    const at: Coord

    constructor (kind: MarkerKind, at: Coord)
      ensures this.kind == kind && this.at == at
    {
      this.kind := kind;
      this.at := at;
    }
  }

  /** A position reported by the geolocation provider. */
  datatype Position = Position(at: Coord, accuracy: real)

  /** What `getCurrentPosition` calls back with: a position or an error code. */
  datatype GeoResult = Located(position: Position) | PositionError(code: int)

  /** The centre the map is created with. */
  const InitialCenter: Coord := Coord(14.09, 120.68)

  class Controller {
    var markers: seq<Marker>
    var current: Marker?
    var layers: set<Marker>
    var center: Coord

    /** The current-location marker, as a set of at most one. */
    ghost function CurrentSet(): set<Marker>
      reads this
    {
      if current == null then {} else {current}
    }

    /** The location markers on the map. */
    ghost function LocationLayers(): set<Marker>
      reads this
    {
      set l | l in layers && l.kind.UserLocation?
    }

    /** The bookkeeping invariant: the map shows exactly the tracked markers
        and the current-location marker, each tracked once, and the
        current-location marker is never among the tracked ones. */
    ghost predicate Valid()
      reads this
      ensures Valid() ==> forall i :: 0 <= i < |markers| ==> markers[i] in layers
      ensures Valid() ==> current != null ==> current in layers && current !in markers
      ensures Valid() ==> LocationLayers() == CurrentSet()
    {
      && Distinct(markers)
      && (forall i :: 0 <= i < |markers| ==> !markers[i].kind.UserLocation?)
      && (current != null ==> current.kind.UserLocation?)
      && layers == Elems(markers) + CurrentSet()
    }

    /** The state when the page has loaded and `initializeMap` has run. */
    constructor ()
      ensures Valid()
      ensures markers == [] && current == null && layers == {} && center == InitialCenter
    {
      markers := [];
      current := null;
      layers := {};
      center := InitialCenter;
    }

    /** `searchLocation`, with the request's reply. A found place becomes the
        map centre and a new marker at the end of `markers`; every other
        outcome leaves the state as it was. */
    method SearchLocation(term: string, reply: SearchReply) returns (alert: Option<Alert>, added: Marker?)
      requires Valid()
      modifies this
      ensures Valid()
      ensures alert == SearchAlert(Search(term, reply))
      ensures current == old(current)
      ensures Search(term, reply).Found? ==>
                var p := Search(term, reply).place;
                && added != null && fresh(added)
                && added.kind == SearchResult(p.displayName) && added.at == p.at
                && markers == old(markers) + [added]
                && layers == old(layers) + {added}
                && center == p.at
      ensures !Search(term, reply).Found? ==>
                added == null && markers == old(markers) && layers == old(layers) && center == old(center)
    {
      var outcome := Search(term, reply);
      alert := SearchAlert(outcome);
      added := null;
      if outcome.Found? {
        var p := outcome.place;
        center := p.at;
        var m := new Marker(SearchResult(p.displayName), p.at);
        layers := layers + {m};
        markers := markers + [m];
        added := m;
      }
    }

    /** `getCurrentLocation`, with the browser's capability and the result it
        called back with. On success the old location marker leaves the map
        before the new one is added; `markers` is never touched. */
    method GetCurrentLocation(supported: bool, result: GeoResult) returns (alert: Alert)
      requires Valid()
      modifies this
      ensures Valid()
      ensures markers == old(markers)
      ensures !supported ==> alert == GeoUnsupported && unchanged(this)
      ensures supported && result.PositionError? ==> alert == GeoError(result.code) && unchanged(this)
      ensures supported && result.Located? ==>
                && alert == CurrentLocationFound
                && current != null && fresh(current) && current.at == result.position.at
                && center == result.position.at
                && layers == old(layers) - old(CurrentSet()) + {current}
                && LocationLayers() == {current}
    {
      if !supported {
        return GeoUnsupported;
      }
      match result
      case PositionError(code) =>
        alert := GeoError(code);
      case Located(position) =>
        center := position.at;
        if current != null {
          layers := layers - {current};
        }
        var m := new Marker(UserLocation, position.at);
        layers := layers + {m};
        current := m;
        alert := CurrentLocationFound;
    }

    /** The user drags or zooms the map, which Leaflet allows by default: the
        centre that `getCenter()` reports moves, and nothing else changes. */
    method Pan(to: Coord)
      requires Valid()
      modifies this
      ensures Valid()
      ensures center == to
      ensures markers == old(markers) && layers == old(layers) && current == old(current)
    {
      center := to;
    }

    /** `addMarker`: a removable marker at the map centre, appended to
        `markers` and put on the map. `latText` and `lngText` are the centre's
        coordinates rendered with six decimals. */
    method AddMarker(latText: string, lngText: string) returns (alert: Alert, m: Marker)
      requires Valid()
      modifies this
      ensures Valid()
      ensures fresh(m) && m.kind == Custom && m.at == center
      ensures markers == old(markers) + [m]
      ensures layers == old(layers) + {m}
      ensures current == old(current) && center == old(center)
      ensures alert == MarkerAdded(latText, lngText)
    {
      m := new Marker(Custom, center);
      layers := layers + {m};
      markers := markers + [m];
      alert := MarkerAdded(latText, lngText);
    }

    /** A click on marker `m` answered `confirmed`. Only markers made by
        `addMarker` carry the remove handler; when it runs and is confirmed,
        `m` leaves the map and its first entry leaves `markers`. */
    method ClickMarker(m: Marker, confirmed: bool)
      requires Valid()
      modifies this
      ensures Valid()
      ensures m.kind.Custom? && confirmed ==>
                markers == RemoveFirst(old(markers), m) && layers == old(layers) - {m}
      ensures !(m.kind.Custom? && confirmed) ==> markers == old(markers) && layers == old(layers)
      ensures current == old(current) && center == old(center)
    {
      if m.kind.Custom? && confirmed {
        layers := layers - {m};
        var i := 0;
        while i < |markers| && markers[i] != m
          invariant 0 <= i <= |markers|
          invariant forall k :: 0 <= k < i ==> markers[k] != m
        {
          i := i + 1;
        }
        ghost var before := markers;
        RemoveFirstDistinct(before, m);
        if i < |markers| {
          RemoveFirstAt(markers, m, i);
          markers := markers[..i] + markers[i + 1..];
        }
        assert markers == RemoveFirst(before, m);
        assert forall k :: 0 <= k < |markers| ==> markers[k] in before;
      }
    }

    /** `clearMarkers`, with the answer to its `confirm`. An empty list is
        reported and left alone; a confirmed clear takes every tracked marker
        off the map and empties the list; a declined one changes nothing. */
    method ClearMarkers(confirmed: bool) returns (alert: Option<Alert>)
      requires Valid()
      modifies this
      ensures Valid()
      ensures old(markers) == [] ==> alert == Some(NoMarkers) && unchanged(this)
      ensures old(markers) != [] && !confirmed ==> alert == None && unchanged(this)
      ensures old(markers) != [] && confirmed ==>
                && alert == Some(MarkersCleared)
                && markers == []
                && layers == old(layers) - Elems(old(markers))
                && layers == CurrentSet()
                && current == old(current) && center == old(center)
    {
      if |markers| == 0 {
        return Some(NoMarkers);
      }
      if !confirmed {
        return None;
      }
      var i := 0;
      while i < |markers|
        invariant 0 <= i <= |markers|
        invariant markers == old(markers) && current == old(current) && center == old(center)
        invariant layers == old(layers) - Elems(markers[..i])
      {
        assert markers[..i + 1] == markers[..i] + [markers[i]];
        layers := layers - {markers[i]};
        i := i + 1;
      }
      assert markers[..i] == markers;
      markers := [];
      alert := Some(MarkersCleared);
    }
  }

  /** Adding a marker and then confirming its removal leaves the markers and
      the map exactly as they were. */
  method AddThenRemove(c: Controller, latText: string, lngText: string)
    requires c.Valid()
    modifies c
    ensures c.Valid()
    ensures c.markers == old(c.markers) && c.layers == old(c.layers)
    ensures c.current == old(c.current) && c.center == old(c.center)
  {
    var _, m := c.AddMarker(latText, lngText);
    c.ClickMarker(m, true);
    RemoveFirstOfAppended(old(c.markers), m);
  }

  /** A marker added after the user has moved the map stands where the user
      moved it to, not where an earlier search or locate put the centre. */
  method PanThenAddMarker(c: Controller, to: Coord, latText: string, lngText: string) returns (m: Marker)
    requires c.Valid()
    modifies c
    ensures c.Valid()
    ensures m.at == to && c.center == to
    ensures c.markers == old(c.markers) + [m] && c.layers == old(c.layers) + {m}
  {
    c.Pan(to);
    var alert;
    alert, m := c.AddMarker(latText, lngText);
  }

  /** A confirmed clear followed by another clear: the second one finds
      nothing to clear and changes nothing. */
  method ClearTwice(c: Controller, confirmed: bool) returns (second: Option<Alert>)
    requires c.Valid()
    modifies c
    ensures c.Valid() && c.markers == []
    ensures second == Some(NoMarkers)
    ensures c.current == old(c.current) && c.center == old(c.center)
  {
    var _ := c.ClearMarkers(true);
    second := c.ClearMarkers(confirmed);
  }
}
