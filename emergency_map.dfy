/** The stateful side of the emergency map (app/emergency/EmergencyMapClient.tsx):
    the page's state and its handlers (`EmergencyMapPage`), and the routing
    component that keeps at most one routing control on the map
    (`MapRouting`). Geolocation answers, Overpass responses and the routing
    engine's events arrive as method parameters. */
module EmergencyMap {
  import opened Wrappers
  import UriComponent
  import opened EmergencySearch

  /** A coordinate pair, each number held as the decimal text JavaScript
      prints for it (the form in which it enters the query). */
  datatype LatLng = LatLng(lat: string, lng: string)

  const DefaultLocation := LatLng("40.7128", "-74.006")

  const OverpassEndpoint := "https://overpass-api.de/api/interpreter?data="

  /** The request URL for a category's tag filters around `at`. */
  function OverpassUrl(tags: seq<string>, at: LatLng): string {
    OverpassEndpoint + UriComponent.Encode(OverpassQuery(tags, at.lat, at.lng))
  }

  /** A text encoded after a URL prefix arrives as the last parameter's
      value: it adds no `?`, `&` or `=`, and decodes to the text. */
  lemma {:induction false} ParameterValue(prefix: string, q: string)
    ensures var url := prefix + UriComponent.Encode(q);
      && url[..|prefix|] == prefix
      && (forall i :: |prefix| <= i < |url| ==> url[i] != '?' && url[i] != '&' && url[i] != '=')
      && UriComponent.Decode(url[|prefix|..]) == Some(q)
  {
    var encoded := UriComponent.Encode(q);
    var url := prefix + encoded;
    assert url[|prefix|..] == encoded;
    forall i | |prefix| <= i < |url| ensures url[i] != '?' && url[i] != '&' && url[i] != '=' {
      assert url[i] == encoded[i - |prefix|];
    }
    UriComponent.DecodeEncode(q);
  }

  /** The server reads the query back from the `data` parameter unchanged:
      the encoded query holds no `?`, `&` or `=`, and decodes to the query. */
  lemma {:induction false} OverpassUrlCarriesQuery(tags: seq<string>, at: LatLng)
    ensures var url := OverpassUrl(tags, at);
      && url[..|OverpassEndpoint|] == OverpassEndpoint
      && (forall i :: |OverpassEndpoint| <= i < |url| ==> url[i] != '?' && url[i] != '&' && url[i] != '=')
      && UriComponent.Decode(url[|OverpassEndpoint|..]) == Some(OverpassQuery(tags, at.lat, at.lng))
  {
    ParameterValue(OverpassEndpoint, OverpassQuery(tags, at.lat, at.lng));
  }

  const LocationUnavailableMessage := "Cannot calculate route: Your location is not available."
  const InvalidCoordinatesMessage := "Cannot calculate route: Invalid start or destination coordinates."
  const TooCloseMessage := "Start and destination are too close to calculate a route."
  const IncompleteRouteMessage := "Routing engine returned an incomplete route. Cannot display."

  /** How the Overpass request ended. `Failed` is any other thrown error
      (network failure, malformed JSON) with its message. */
  datatype FetchOutcome =
    | TimedOut
    | Failed(message: string)
    | HttpError(status: nat, statusText: string, body: Option<string>)
    | Received(data: Value)

  /** The places shown on the map: validated elements without repeated ids. */
  predicate ValidPlaceList(places: seq<Place>) {
    DistinctIds(places) && forall i :: 0 <= i < |places| ==> Keep(places[i].element)
  }

  /** De-duplicating validated places gives a list the map can show. */
  lemma {:induction false} UniquePlacesValid(valid: seq<Place>)
    requires forall i :: 0 <= i < |valid| ==> Keep(valid[i].element)
    ensures IsUniqueById(valid, UniqueById(valid))
    ensures ValidPlaceList(UniqueById(valid))
  {
    var unique := UniqueById(valid);
    UniqueByIdIsUnique(valid);
    forall k | 0 <= k < |unique| ensures Keep(unique[k].element) {
      assert unique[k] == valid[LastIndex(valid, unique[k].id)];
    }
  }

  /** What a finished search leaves behind: the places to show and, when
      there is one, the notice that replaces the banner's error. */
  datatype FetchReport = FetchReport(places: seq<Place>, notice: Option<string>)

  /** The outcome of the request turned into places and a notice; what each
      outcome gives is stated by `ReportOutcomes`. `displayName` is the
      selected category's. */
  function Report(outcome: FetchOutcome, typeErrorText: string, displayName: string): (r: FetchReport)
    ensures ValidPlaceList(r.places)
  {
    match outcome
    case TimedOut => FetchReport([], Some(TimedOutMessage))
    case Failed(message) => FetchReport([], Some(FetchErrorMessage(message)))
    case HttpError(status, statusText, body) =>
      FetchReport([], Some(FetchErrorMessage(HttpFailureMessage(status, statusText, body))))
    case Received(data) => ResponseReport(data, typeErrorText, displayName)
  }

  /** The places and notice of a response the server delivered. */
  function ResponseReport(data: Value, typeErrorText: string, displayName: string): (r: FetchReport)
    ensures ValidPlaceList(r.places)
  {
    match ValidPlaces(data)
    case Err(_) => FetchReport([], Some(FetchErrorMessage(typeErrorText)))
    case Ok(valid) =>
      UniquePlacesValid(valid);
      var unique := UniqueById(valid);
      FetchReport(unique, if unique == [] then Some(NoPlacesMessage(displayName)) else None)
  }

  /** A failure shows no places and says why; a response shows its valid
      elements without repeated ids, and says so when there are none. */
  lemma {:induction false} ReportOutcomes(outcome: FetchOutcome, typeErrorText: string, displayName: string)
    ensures var r := Report(outcome, typeErrorText, displayName);
      && (outcome.TimedOut? ==> r == FetchReport([], Some(TimedOutMessage)))
      && (outcome.Failed? ==> r == FetchReport([], Some(FetchErrorMessage(outcome.message))))
      && (outcome.HttpError? ==>
            r == FetchReport([], Some(HttpFailureMessage(outcome.status, outcome.statusText, outcome.body))))
      && (outcome.Received? && ValidPlaces(outcome.data).Err? ==>
            r == FetchReport([], Some(FetchErrorMessage(typeErrorText))))
      && (outcome.Received? && ValidPlaces(outcome.data).Ok? ==>
            IsUniqueById(ValidPlaces(outcome.data).value, r.places)
            && (r.places == [] ==> r.notice == Some(NoPlacesMessage(displayName)))
            && (r.places != [] ==> r.notice == None))
  {
    if outcome.Received? && ValidPlaces(outcome.data).Ok? {
      UniqueByIdIsUnique(ValidPlaces(outcome.data).value);
    }
  }

  class EmergencyMapPage {
    var location: Option<LatLng>
    var places: seq<Place>
    var selectedType: string
    var initialLoading: bool
    var fetchingPlaces: bool
    var error: Option<string>
    var lastRouteError: Option<string>
    var routingDestination: Option<LatLng>

    ghost predicate Valid()
      reads this
    {
      && ValidPlaceList(places)
      && (fetchingPlaces ==> location.Some? && FindType(MedicalTypes, selectedType).Some? && places == [])
    }

    /** The initial state: no location yet, the first category selected. */
    constructor()
      ensures Valid()
      ensures location == None && places == [] && selectedType == MedicalTypes[0].key
      ensures initialLoading && !fetchingPlaces
      ensures error == None && lastRouteError == None && routingDestination == None
    {
      location := None;
      places := [];
      selectedType := MedicalTypes[0].key;
      initialLoading := true;
      fetchingPlaces := false;
      error := None;
      lastRouteError := None;
      routingDestination := None;
    }

    /** The text of the notice banner: the route error takes precedence. */
    function Notice(): (r: Option<string>)
      reads this
      ensures lastRouteError.Some? && lastRouteError.value != [] ==> r == lastRouteError
      ensures (lastRouteError.None? || lastRouteError.value == []) && error.Some? && error.value != [] ==> r == error
      ensures r.None? <==> (lastRouteError.None? || lastRouteError.value == []) && (error.None? || error.value == [])
    {
      if lastRouteError.Some? && lastRouteError.value != [] then lastRouteError
      else if error.Some? && error.value != [] then error
      else None
    }

    /** Whether the banner offers "Clear Route Attempt". */
    predicate ShowsClearRoute()
      reads this
    {
      routingDestination.Some? || (lastRouteError.Some? && lastRouteError.value != [])
    }

    /** The mount effect up to the position request. Without geolocation the
        default location is used at once. */
    method Mount(geolocationSupported: bool)
      requires Valid()
      modifies this
      ensures Valid()
      ensures lastRouteError == None && routingDestination == None
      ensures places == old(places) && selectedType == old(selectedType) && fetchingPlaces == old(fetchingPlaces)
      ensures geolocationSupported ==>
        initialLoading && error == None && location == old(location)
      ensures !geolocationSupported ==>
        !initialLoading && error == Some(GeolocationUnsupportedMessage) && location == Some(DefaultLocation)
    {
      initialLoading := true;
      error := None;
      lastRouteError := None;
      routingDestination := None;
      if !geolocationSupported {
        error := Some(GeolocationUnsupportedMessage);
        location := Some(DefaultLocation);
        initialLoading := false;
      }
    }

    /** The position request succeeded. */
    method OnPosition(at: LatLng)
      requires Valid()
      modifies this
      ensures Valid()
      ensures location == Some(at) && error == None && !initialLoading
      ensures places == old(places) && selectedType == old(selectedType) && fetchingPlaces == old(fetchingPlaces)
      ensures lastRouteError == old(lastRouteError) && routingDestination == old(routingDestination)
    {
      location := Some(at);
      error := None;
      initialLoading := false;
    }

    /** The position request failed with a GeolocationPositionError code. */
    method OnGeoError(code: int)
      requires Valid()
      modifies this
      ensures Valid()
      ensures location == Some(DefaultLocation) && error == Some(GeoErrorMessage(code)) && !initialLoading
      ensures places == old(places) && selectedType == old(selectedType) && fetchingPlaces == old(fetchingPlaces)
      ensures lastRouteError == old(lastRouteError) && routingDestination == old(routingDestination)
    {
      error := Some(GeoErrorMessage(code));
      location := Some(DefaultLocation);
      initialLoading := false;
    }

    /** A category button. It is disabled while a search runs, and clicking
        the selected category changes nothing. */
    method SelectType(key: string)
      requires Valid()
      modifies this
      ensures Valid()
      ensures selectedType == (if old(fetchingPlaces) then old(selectedType) else key)
      ensures location == old(location) && places == old(places) && fetchingPlaces == old(fetchingPlaces)
      ensures error == old(error) && lastRouteError == old(lastRouteError)
      ensures routingDestination == old(routingDestination) && initialLoading == old(initialLoading)
    {
      if !fetchingPlaces && selectedType != key {
        selectedType := key;
      }
    }

    /** The synchronous start of `fetchMedicalPlaces`: clears the previous
        results and returns the request URL, or no URL when there is no
        location yet or the selected category is unknown. */
    method BeginFetch() returns (url: Option<string>)
      requires Valid()
      modifies this
      ensures Valid()
      ensures selectedType == old(selectedType) && location == old(location) && initialLoading == old(initialLoading)
      ensures old(location).None? ==>
        url == None && places == old(places) && fetchingPlaces == old(fetchingPlaces)
        && error == old(error) && lastRouteError == old(lastRouteError)
        && routingDestination == old(routingDestination)
      ensures old(location).Some? ==>
        places == [] && lastRouteError == None && routingDestination == None
      ensures old(location).Some? && FindType(MedicalTypes, selectedType).None? ==>
        url == None && !fetchingPlaces && error == Some("Invalid type selected: " + selectedType)
      ensures old(location).Some? && FindType(MedicalTypes, selectedType).Some? ==>
        fetchingPlaces && error == None
        && url == Some(OverpassUrl(FindType(MedicalTypes, selectedType).value.queryTags, old(location).value))
    {
      if location.None? {
        return None;
      }
      fetchingPlaces := true;
      error := None;
      lastRouteError := None;
      places := [];
      routingDestination := None;
      var config := FindType(MedicalTypes, selectedType);
      if config.None? {
        error := Some(FetchErrorMessage("Invalid type selected: " + selectedType));
        places := [];
        fetchingPlaces := false;
        return None;
      }
      url := Some(OverpassUrl(config.value.queryTags, location.value));
    }

    /** The end of `fetchMedicalPlaces`: the places found, or the notice for
        the failure. `typeErrorText` is the engine's message for a TypeError
        thrown while reading the response. */
    method CompleteFetch(outcome: FetchOutcome, typeErrorText: string)
      requires Valid() && fetchingPlaces
      modifies this`places, this`error, this`fetchingPlaces
      ensures Valid()
      ensures !fetchingPlaces
      ensures var report := Report(outcome, typeErrorText, FindType(MedicalTypes, old(selectedType)).value.displayName);
        places == report.places
        && error == (if report.notice.Some? then report.notice else old(error))
    {
      var config := FindType(MedicalTypes, selectedType).value;
      var report := Report(outcome, typeErrorText, config.displayName);
      places, fetchingPlaces := report.places, false;
      error := if report.notice.Some? then report.notice else error;
    }

    /** "Show route" on a place's popup. */
    method HandleShowRoute(destination: LatLng)
      requires Valid()
      modifies this
      ensures Valid()
      ensures location == old(location) && places == old(places) && selectedType == old(selectedType)
      ensures fetchingPlaces == old(fetchingPlaces) && initialLoading == old(initialLoading)
      ensures old(location).None? ==>
        error == Some(LocationUnavailableMessage)
        && routingDestination == old(routingDestination) && lastRouteError == old(lastRouteError)
      ensures old(location).Some? ==>
        routingDestination == Some(destination) && error == None && lastRouteError == None
    {
      if location.None? {
        error := Some(LocationUnavailableMessage);
        return;
      }
      routingDestination := Some(destination);
      error := None;
      lastRouteError := None;
    }

    /** "Clear Route Attempt", and the routing component's `onRouteClear`. */
    method HandleClearRoute()
      requires Valid()
      modifies this
      ensures Valid()
      ensures routingDestination == None && lastRouteError == None
      ensures location == old(location) && places == old(places) && selectedType == old(selectedType)
      ensures fetchingPlaces == old(fetchingPlaces) && initialLoading == old(initialLoading) && error == old(error)
    {
      routingDestination := None;
      lastRouteError := None;
    }

    /** The routing component's `onRouteError`. */
    method HandleRouteError(message: string)
      requires Valid()
      modifies this
      ensures Valid()
      ensures lastRouteError == Some(message) && routingDestination == old(routingDestination)
      ensures location == old(location) && places == old(places) && selectedType == old(selectedType)
      ensures fetchingPlaces == old(fetchingPlaces) && initialLoading == old(initialLoading) && error == old(error)
    {
      lastRouteError := Some(message);
    }

    /** A failed route as the routing component reports it: `onRouteError`
        followed by `onRouteClear`. The clear resets the error just set, so
        the message never reaches the banner. */
    method RouteFailedAsWritten(message: string)
      requires Valid()
      modifies this
      ensures Valid()
      ensures routingDestination == None
      ensures lastRouteError == None
      ensures Notice() == (if error.Some? && error.value != [] then error else None)
      ensures error == old(error) && location == old(location) && places == old(places)
      ensures selectedType == old(selectedType) && fetchingPlaces == old(fetchingPlaces)
      ensures initialLoading == old(initialLoading)
    {
      HandleRouteError(message);
      HandleClearRoute();
    }

    /** A failed route as evidently intended: the route is dropped and its
        error stays on the banner (with "Clear Route Attempt" to dismiss it). */
    method RouteFailed(message: string)
      requires Valid()
      modifies this
      ensures Valid()
      ensures routingDestination == None
      ensures lastRouteError == Some(message)
      ensures message != [] ==> Notice() == Some(message) && ShowsClearRoute()
      ensures error == old(error) && location == old(location) && places == old(places)
      ensures selectedType == old(selectedType) && fetchingPlaces == old(fetchingPlaces)
      ensures initialLoading == old(initialLoading)
    {
      HandleClearRoute();
      HandleRouteError(message);
    }
  }

  /** A Leaflet Routing Machine control between two waypoints. */
  class RoutingControl {
    const start: LatLng
    const destination: LatLng

    constructor(start: LatLng, destination: LatLng)
      ensures this.start == start && this.destination == destination
    {
      this.start := start;
      this.destination := destination;
    }
  }

  /** `MapRoutingComponent`: `current` is `routingControlRef.current` and
      `controls` the routing controls added to the map. */
  class MapRouting {
    var current: RoutingControl?
    var controls: set<RoutingControl>

    ghost predicate Valid()
      reads this
    {
      controls == if current == null then {} else {current}
    }

    constructor()
      ensures Valid() && current == null
    {
      current := null;
      controls := {};
    }

    /** `map.removeControl(current)` and `current = null`. */
    method RemoveCurrent()
      requires Valid()
      modifies this
      ensures Valid() && current == null && controls == {}
    {
      if current != null {
        controls := controls - {current};
        current := null;
      }
    }

    /** The effect, run with the page's location and route destination.
        `mapReady` is whether the map instance exists; `coordinatesValid`
        and `tooClose` are Leaflet's NaN test and its `distanceTo(...) < 1`,
        which work on floating-point numbers. */
    method Effect(page: EmergencyMapPage, mapReady: bool, coordinatesValid: bool, tooClose: bool)
      requires Valid() && page.Valid()
      modifies this, page
      ensures Valid() && page.Valid()
      ensures !mapReady || old(page.location).None? ==>
        current == old(current) && controls == old(controls) && unchanged(page)
      ensures mapReady && old(page.location).Some? && old(page.routingDestination).None? ==>
        current == null && controls == {} && unchanged(page)
      ensures mapReady && old(page.location).Some? && old(page.routingDestination).Some? && coordinatesValid && !tooClose ==>
        current != null && fresh(current) && controls == {current}
        && current.start == old(page.location).value
        && current.destination == old(page.routingDestination).value
        && unchanged(page)
      ensures mapReady && old(page.location).Some? && old(page.routingDestination).Some? && (!coordinatesValid || tooClose) ==>
        current == null && controls == {} && page.routingDestination == None && page.lastRouteError == None
      ensures page.location == old(page.location) && page.places == old(page.places) && page.error == old(page.error)
      ensures page.selectedType == old(page.selectedType) && page.fetchingPlaces == old(page.fetchingPlaces)
      ensures page.initialLoading == old(page.initialLoading)
    {
      if !mapReady || page.location.None? {
        return;
      }
      if page.routingDestination.None? {
        RemoveCurrent();
        return;
      }
      RemoveCurrent();
      if !coordinatesValid {
        page.RouteFailedAsWritten(InvalidCoordinatesMessage);
        return;
      }
      if tooClose {
        page.RouteFailedAsWritten(TooCloseMessage);
        return;
      }
      var control := new RoutingControl(page.location.value, page.routingDestination.value);
      current := control;
      controls := controls + {control};
    }

    /** The effect's cleanup, run before the next effect and on unmount. */
    method Cleanup()
      requires Valid()
      modifies this
      ensures Valid() && current == null && controls == {}
    {
      RemoveCurrent();
    }

    /** The control's `routingerror` event. */
    method OnRoutingError(page: EmergencyMapPage, message: Option<string>, status: Option<int>)
      requires Valid() && page.Valid()
      modifies this, page
      ensures Valid() && page.Valid()
      ensures current == null && controls == {}
      ensures page.routingDestination == None && page.lastRouteError == None
      ensures page.location == old(page.location) && page.places == old(page.places) && page.error == old(page.error)
      ensures page.selectedType == old(page.selectedType) && page.fetchingPlaces == old(page.fetchingPlaces)
      ensures page.initialLoading == old(page.initialLoading)
    {
      var text := RouteErrorMessage(message, status);
      RemoveCurrent();
      page.RouteFailedAsWritten(text);
    }

    /** The control's `routesfound` event; `complete` is whether the first
        route has coordinates. Fitting the view is left to Leaflet. */
    method OnRoutesFound(page: EmergencyMapPage, complete: bool)
      requires Valid() && page.Valid()
      modifies this, page
      ensures Valid() && page.Valid()
      ensures complete ==> current == old(current) && controls == old(controls) && unchanged(page)
      ensures !complete ==>
        current == null && controls == {} && page.routingDestination == None && page.lastRouteError == None
      ensures page.location == old(page.location) && page.places == old(page.places) && page.error == old(page.error)
      ensures page.selectedType == old(page.selectedType) && page.fetchingPlaces == old(page.fetchingPlaces)
      ensures page.initialLoading == old(page.initialLoading)
    {
      if !complete {
        RemoveCurrent();
        page.RouteFailedAsWritten(IncompleteRouteMessage);
      }
    }
  }
}
