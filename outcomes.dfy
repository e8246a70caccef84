/** The outcome mappings of the map widget that are expressions only: which
    branch a forward search takes, the message for a geolocation failure, the
    address text a reverse lookup yields, and the wording of every alert. */
module Outcomes {

  /** A point on the map. Coordinates are abstract: float parsing and
      six-decimal formatting are not modelled. */
  datatype Coord = Coord(lat: real, lng: real)

  /** One element of the forward-search answer: `lat`/`lon` already parsed,
      and `display_name`. */
  datatype Place = Place(at: Coord, displayName: string)

  /** The finished search request (`readyState === 4`): the HTTP status and
      the body as parsed by `JSON.parse`, or None when parsing throws. */
  datatype SearchReply = SearchReply(status: int, body: Option<seq<Place>>)

  datatype Option<T> = None | Some(value: T)

  /** The branch `searchLocation` takes. */
  datatype SearchOutcome =
    | Rejected            // empty term: no request is sent
    | Found(place: Place) // the first result is shown and marked
    | NotFound            // status 200 and an empty result list
    | Failed              // any other status
    | Uncaught            // `JSON.parse` throws inside the callback: nothing happens

  /** The outcome of a search for `term` whose request, if any is sent, is
      answered by `reply`. The term is tested for emptiness only, without
      trimming; only the first result is consulted. */
  function Search(term: string, reply: SearchReply): (r: SearchOutcome)
    ensures r.Rejected? <==> term == ""
    ensures r.Failed? <==> term != "" && reply.status != 200
    ensures r.Uncaught? <==> term != "" && reply.status == 200 && reply.body.None?
    ensures r.NotFound? <==> term != "" && reply.status == 200 && reply.body == Some([])
    ensures r.Found? <==> term != "" && reply.status == 200 && reply.body.Some? && reply.body.value != []
    ensures r.Found? ==> r.place == reply.body.value[0]
  {
    if term == "" then Rejected
    else if reply.status != 200 then Failed
    else match reply.body
      case None => Uncaught
      case Some(data) => if |data| > 0 then Found(data[0]) else NotFound
  }

  /** The alert `searchLocation` raises for each outcome; an uncaught parse
      error raises none. */
  function SearchAlert(o: SearchOutcome): (r: Option<Alert>)
    ensures r.None? <==> o.Uncaught?
    ensures o.Found? ==> r.Some? && Text(r.value) == "Location found: " + o.place.displayName
  {
    match o
    case Rejected => Some(EnterSearchTerm)
    case Found(p) => Some(LocationFound(p.displayName))
    case NotFound => Some(LocationNotFound)
    case Failed => Some(SearchError)
    case Uncaught => None
  }

  /** The alert tells the user what happened: two searches that raise the
      same `Alert` value had the same kind of outcome, and two found places
      that raise the same `Alert` value have the same name. */
  lemma SearchAlertTellsOutcome(o: SearchOutcome, o': SearchOutcome)
    requires SearchAlert(o).Some? && SearchAlert(o) == SearchAlert(o')
    ensures o.Rejected? == o'.Rejected? && o.Found? == o'.Found?
    ensures o.NotFound? == o'.NotFound? && o.Failed? == o'.Failed?
    ensures o.Found? ==> o'.Found? && o.place.displayName == o'.place.displayName
  {
  }

  /** Results after the first never change the outcome of a search. */
  lemma SearchIgnoresLaterResults(term: string, status: int, first: Place, rest: seq<Place>, rest': seq<Place>)
    ensures Search(term, SearchReply(status, Some([first] + rest)))
         == Search(term, SearchReply(status, Some([first] + rest')))
  {
  }

  // The error codes of the W3C Geolocation API (GeolocationPositionError).
  const PERMISSION_DENIED: int := 1
  const POSITION_UNAVAILABLE: int := 2
  const TIMEOUT: int := 3

  /** The common beginning of every geolocation failure message. */
  const GeoErrorPrefix: string := "Unable to get your location. "

  /** The four causes a geolocation failure is reported as. */
  datatype GeoCause = Denied | Unavailable | TimedOut | Unknown

  function CauseOf(code: int): GeoCause
  {
    if code == PERMISSION_DENIED then Denied
    else if code == POSITION_UNAVAILABLE then Unavailable
    else if code == TIMEOUT then TimedOut
    else Unknown
  }

  /** The alert text for a geolocation failure with the given error code. */
  function GeoErrorMessage(code: int): (msg: string)
    ensures |msg| > |GeoErrorPrefix| && msg[..|GeoErrorPrefix|] == GeoErrorPrefix
    ensures code !in {PERMISSION_DENIED, POSITION_UNAVAILABLE, TIMEOUT} ==>
              msg == GeoErrorPrefix + "An unknown error occurred."
  {
    GeoErrorPrefix +
      (if code == PERMISSION_DENIED then "Location access denied by user."
       else if code == POSITION_UNAVAILABLE then "Location information unavailable."
       else if code == TIMEOUT then "Location request timed out."
       else "An unknown error occurred.")
  }

  /** Two error codes get the same message exactly when they are reported as
      the same cause: the three known codes are told apart from each other
      and from every other code. */
  lemma GeoErrorMessageDistinguishesCauses(a: int, b: int)
    ensures GeoErrorMessage(a) == GeoErrorMessage(b) <==> CauseOf(a) == CauseOf(b)
  {
  }

  /** The answer to the reverse-lookup request: the `fetch` promise rejects
      (network failure), or a response arrives with its `ok` flag and its body
      as parsed by `response.json()` (None when parsing fails). */
  datatype ReverseReply =
    | NetworkFailure
    | Response(ok: bool, body: Option<ReverseBody>)

  /** The parsed reverse-lookup body: its `display_name` field, None when it is
      absent or null. */
  datatype ReverseBody = ReverseBody(displayName: Option<string>)

  const AddressNotFound: string := "Address not found"
  const AddressUnavailable: string := "Unable to fetch address"

  /** The request succeeded: an ok response whose body parsed. */
  predicate Answered(reply: ReverseReply)
  {
    reply.Response? && reply.ok && reply.body.Some?
  }

  /** The address the service named, when it named a non-empty one. */
  function NamedAddress(reply: ReverseReply): Option<string>
  {
    if Answered(reply) && reply.body.value.displayName.Some? && reply.body.value.displayName.value != ""
    then Some(reply.body.value.displayName.value)
    else None
  }

  /** The text `fetchAddress` resolves to. It never fails: a named address is
      passed through, an answer without one gives "Address not found", and
      every failure (network, non-ok status, unparsable body) gives
      "Unable to fetch address". */
  function FetchAddress(reply: ReverseReply): (address: string)
    ensures address != ""
    ensures NamedAddress(reply).Some? ==> address == NamedAddress(reply).value
    ensures Answered(reply) && NamedAddress(reply).None? ==> address == AddressNotFound
    ensures !Answered(reply) ==> address == AddressUnavailable
  {
    match reply
    case NetworkFailure => AddressUnavailable
    case Response(ok, body) =>
      if !ok then AddressUnavailable
      else match body
        case None => AddressUnavailable
        case Some(data) =>
          match data.displayName
          case Some(name) => if name != "" then name else AddressNotFound
          case None => AddressNotFound
  }

  /** What the controller shows the user with `alert`. The coordinate texts
      of MarkerAdded are the six-decimal renderings of the map centre. */
  datatype Alert =
    | MapReady
    | EnterSearchTerm
    | LocationFound(displayName: string)
    | LocationNotFound
    | SearchError
    | GeoUnsupported
    | CurrentLocationFound
    | GeoError(code: int)
    | MarkerAdded(latText: string, lngText: string)
    | NoMarkers
    | MarkersCleared

  /** The wording of each alert. */
  function Text(a: Alert): (text: string)
    ensures text != ""
    ensures a.GeoError? ==> |text| > |GeoErrorPrefix| && text[..|GeoErrorPrefix|] == GeoErrorPrefix
    ensures a.LocationFound? ==> |text| >= 16 && text[16..] == a.displayName
  {
    match a
    case MapReady => "Map initialized successfully!"
    case EnterSearchTerm => "Please enter a location to search for!"
    case LocationFound(name) => "Location found: " + name
    case LocationNotFound => "Location not found. Please try a different search term."
    case SearchError => "Error searching for location. Please try again."
    case GeoUnsupported => "Geolocation is not supported by this browser."
    case CurrentLocationFound => "Current location found!"
    case GeoError(code) => GeoErrorMessage(code)
    case MarkerAdded(lat, lng) => "Marker added at: " + lat + ", " + lng
    case NoMarkers => "No markers to clear!"
    case MarkersCleared => "All markers cleared"
  }
}
