/** The page's state record and its refresh cycle (index.js:8-14, 163-244).
    The awaited calls become inputs: the outcome of `getLocation`, and the
    network-and-JSON part of each transit request as a function from its
    argument to the parsed response or the exception it raised. */
module App {
  import opened Common
  import opened Sorting
  import opened TflService
  import opened Render

  const UnknownErrorMessage := "An unknown error occurred."
  const UnsupportedMessage := "Geolocation is not supported by your browser."
  const DeviceErrorPrefix := "Error getting location: "
  const DeviceErrorSuffix := ". Please enable location services."

  datatype Coordinates = Coordinates(latitude: real, longitude: real)

  /** The fixed position used when the test-location checkbox is ticked. */
  const TestLocation := Coordinates(51.5181627156178, -0.1786709008541014)

  /** What `getLocation` consults: the checkbox; the `lat` and `lon` query
      parameters, present here only when both are non-empty (already
      parsed); whether the browser has geolocation; and what the device
      reports, a position or the message of its error. */
  datatype LocationSources = LocationSources(
    testCheckbox: bool,
    urlLocation: Option<Coordinates>,
    geolocationSupported: bool,
    device: Result<Coordinates, string>)

  /** `getLocation`: the checkbox wins, then the query parameters, then the
      device; without geolocation support it rejects. */
  function GetLocation(src: LocationSources): (r: Result<Coordinates, Exception>)
    ensures src.testCheckbox ==> r == Success(TestLocation)
    ensures !src.testCheckbox && src.urlLocation.Some? ==> r == Success(src.urlLocation.value)
    ensures r.Failure? <==> !src.testCheckbox && src.urlLocation.None?
                            && (!src.geolocationSupported || src.device.Failure?)
    ensures r.Success? && !src.testCheckbox && src.urlLocation.None? ==> src.device == Success(r.value)
    ensures r.Failure? ==> r.error.ErrorObject? && r.error.message != ""
  {
    if src.testCheckbox then Success(TestLocation)
    else if src.urlLocation.Some? then Success(src.urlLocation.value)
    else if !src.geolocationSupported then Failure(ErrorObject(UnsupportedMessage))
    else match src.device
      case Success(coords) => Success(coords)
      case Failure(message) => Failure(ErrorObject(DeviceErrorPrefix + message + DeviceErrorSuffix))
  }

  /** `err instanceof Error ? err.message : 'An unknown error occurred.'` */
  function ErrorText(e: Exception): (r: string)
    ensures e.ErrorObject? ==> r == e.message
    ensures e.OtherValue? ==> r == UnknownErrorMessage && r != ""
  {
    match e
    case ErrorObject(message) => message
    case OtherValue => UnknownErrorMessage
  }

  /** The discovery step once the location is known: `discover`, then
      `fetchNearbyStops` on its response; the stops found, or the exception
      raised. */
  function Discovered(coords: Coordinates, discover: Coordinates -> Result<NearbyResponse, Exception>)
    : (r: Result<seq<StopPoint>, Exception>)
    ensures discover(coords).Failure? ==> r == Failure(discover(coords).error)
    ensures discover(coords).Success? ==> r == FetchNearbyStops(discover(coords).value)
    ensures r.Success? ==> |r.value| <= MaxNearbyStops && SortedBy(r.value, Distance)
  {
    match discover(coords)
    case Failure(e) => Failure(e)
    case Success(resp) => FetchNearbyStops(resp)
  }

  /** The location step followed by the discovery step: the stops found, or
      the first exception raised. */
  function DiscoveryOutcome(location: Result<Coordinates, Exception>,
                            discover: Coordinates -> Result<NearbyResponse, Exception>)
    : (r: Result<seq<StopPoint>, Exception>)
    ensures location.Failure? ==> r == Failure(location.error)
    ensures location.Success? ==> r == Discovered(location.value, discover)
    ensures r.Success? ==> |r.value| <= MaxNearbyStops && SortedBy(r.value, Distance)
  {
    match location
    case Failure(e) => Failure(e)
    case Success(coords) => Discovered(coords, discover)
  }

  /** One stop's arrival fetch with its `catch`: a failure becomes no arrivals. */
  function ArrivalsOrEmpty(outcome: Result<ArrivalsResponse, Exception>): (r: seq<Arrival>)
    ensures outcome.Failure? || outcome.value.ArrivalsNotOk? ==> r == []
    ensures outcome.Success? && outcome.value.ArrivalsOk? ==>
              multiset(r) == multiset(outcome.value.data) && SortedBy(r, TimeToStation)
    ensures outcome.Success? && outcome.value.ArrivalsOk? ==>
              forall t :: KeyFilter(r, TimeToStation, t) == KeyFilter(outcome.value.data, TimeToStation, t)
  {
    match outcome
    case Success(resp) => FetchArrivalsForStop(resp)
    case Failure(_) => []
  }

  /** `Promise.all(nearbyStops.map(...))`: one entry per stop, in the same
      order, carrying the stop and its arrivals (none when its fetch failed). */
  function WithArrivals(stops: seq<StopPoint>, arrivalsFor: string -> Result<ArrivalsResponse, Exception>)
    : (r: seq<StopWithArrivals>)
    ensures |r| == |stops|
    ensures forall i :: 0 <= i < |stops| ==>
              r[i].stop == stops[i] && r[i].arrivals == ArrivalsOrEmpty(arrivalsFor(stops[i].id))
  {
    if stops == [] then []
    else [StopWithArrivals(stops[0], ArrivalsOrEmpty(arrivalsFor(stops[0].id)))] + WithArrivals(stops[1..], arrivalsFor)
  }

  /** Attaching arrivals keeps the distance order of the stops. */
  lemma WithArrivalsSorted(stops: seq<StopPoint>, arrivalsFor: string -> Result<ArrivalsResponse, Exception>)
    requires SortedBy(stops, Distance)
    ensures SortedBy(WithArrivals(stops, arrivalsFor), StopDistance)
  {
    var r := WithArrivals(stops, arrivalsFor);
    assert forall i :: 0 <= i < |r| ==> StopDistance(r[i]) == Distance(stops[i]);
  }

  /** The fields of the `state` record. */
  datatype Snapshot = Snapshot(
    stopsWithArrivals: seq<StopWithArrivals>,
    isRefreshing: bool,
    loadingMessage: LoadingMessage,
    error: Option<string>)

  /** The start of a cycle (index.js:197-201) with the `render` it ends on:
      refreshing, the error cleared when stops are shown, and the stops in
      distance order. */
  function Begin(s: Snapshot): Snapshot
  {
    s.(stopsWithArrivals := SortBy(s.stopsWithArrivals, StopDistance),
       isRefreshing := true,
       error := if s.stopsWithArrivals != [] then None else s.error)
  }

  /** What the cycle does with the outcome of discovery (index.js:212-239):
      record a failure as the error; keep the current stops when none were
      found; otherwise show the stops found, with their arrivals. */
  function Settle(s: Snapshot, nearby: Result<seq<StopPoint>, Exception>,
                  arrivalsFor: string -> Result<ArrivalsResponse, Exception>): Snapshot
  {
    match nearby
    case Failure(e) => s.(error := Some(ErrorText(e)))
    case Success(stops) =>
      if stops == [] then s
      else s.(stopsWithArrivals := WithArrivals(stops, arrivalsFor), loadingMessage := Fetching, error := None)
  }

  /** The `try` block of a cycle and its `catch` (index.js:203-239). */
  function Steps(s: Snapshot, location: Result<Coordinates, Exception>,
                 discover: Coordinates -> Result<NearbyResponse, Exception>,
                 arrivalsFor: string -> Result<ArrivalsResponse, Exception>): Snapshot
  {
    match location
    case Failure(e) => s.(loadingMessage := Locating, error := Some(ErrorText(e)))
    case Success(coords) => Settle(s.(loadingMessage := Finding), Discovered(coords, discover), arrivalsFor)
  }

  /** The state after one `fetchTransportData` cycle from state `s`, after its
      `finally` has cleared the refresh flag. */
  function Cycle(s: Snapshot, location: Result<Coordinates, Exception>,
                 discover: Coordinates -> Result<NearbyResponse, Exception>,
                 arrivalsFor: string -> Result<ArrivalsResponse, Exception>): Snapshot
  {
    Steps(Begin(s), location, discover, arrivalsFor).(isRefreshing := false)
  }

  /** What a cycle leaves behind: never a refresh in progress, stops in
      distance order; on a failed step or no stops found, the stops it had
      (reordered at most) under the error of that step, or under no error
      if stops were shown; otherwise the stops found with their arrivals. */
  lemma CycleOutcome(s: Snapshot, location: Result<Coordinates, Exception>,
                     discover: Coordinates -> Result<NearbyResponse, Exception>,
                     arrivalsFor: string -> Result<ArrivalsResponse, Exception>)
    ensures !Cycle(s, location, discover, arrivalsFor).isRefreshing
    ensures SortedBy(Cycle(s, location, discover, arrivalsFor).stopsWithArrivals, StopDistance)
    ensures DiscoveryOutcome(location, discover).Failure? ==>
              var t := Cycle(s, location, discover, arrivalsFor);
              && multiset(t.stopsWithArrivals) == multiset(s.stopsWithArrivals)
              && t.error == Some(ErrorText(DiscoveryOutcome(location, discover).error))
    ensures DiscoveryOutcome(location, discover) == Success([]) ==>
              var t := Cycle(s, location, discover, arrivalsFor);
              && multiset(t.stopsWithArrivals) == multiset(s.stopsWithArrivals)
              && t.error == (if s.stopsWithArrivals != [] then None else s.error)
    ensures DiscoveryOutcome(location, discover).Success? && DiscoveryOutcome(location, discover).value != [] ==>
              var t := Cycle(s, location, discover, arrivalsFor);
              && t.stopsWithArrivals == WithArrivals(DiscoveryOutcome(location, discover).value, arrivalsFor)
              && t.error == None
  {
    var outcome := DiscoveryOutcome(location, discover);
    if outcome.Success? && outcome.value != [] {
      WithArrivalsSorted(outcome.value, arrivalsFor);
    }
  }

  /** A cycle whose location or discovery step fails, or that finds no stops,
      leaves stops that are already shown (hence in distance order) exactly
      as they were. */
  lemma CycleKeepsShownStops(s: Snapshot, location: Result<Coordinates, Exception>,
                             discover: Coordinates -> Result<NearbyResponse, Exception>,
                             arrivalsFor: string -> Result<ArrivalsResponse, Exception>)
    requires SortedBy(s.stopsWithArrivals, StopDistance)
    requires DiscoveryOutcome(location, discover).Failure? || DiscoveryOutcome(location, discover) == Success([])
    ensures Cycle(s, location, discover, arrivalsFor).stopsWithArrivals == s.stopsWithArrivals
  {
    SortBySortedIdentity(s.stopsWithArrivals, StopDistance);
  }

  /** The service answering non-OK aborts the cycle: the shown stops stay,
      and the error is the service's message, or the fixed failure text when
      it has none. */
  lemma NotOkCycleKeepsStops(s: Snapshot, coords: Coordinates,
                             discover: Coordinates -> Result<NearbyResponse, Exception>,
                             arrivalsFor: string -> Result<ArrivalsResponse, Exception>,
                             message: Option<string>)
    requires SortedBy(s.stopsWithArrivals, StopDistance)
    requires discover(coords) == Success(NearbyNotOk(message))
    ensures var t := Cycle(s, Success(coords), discover, arrivalsFor);
      && t.stopsWithArrivals == s.stopsWithArrivals
      && !t.isRefreshing
      && t.error == Some(if message.Some? && message.value != "" then message.value else NearbyFailureMessage)
  {
    CycleKeepsShownStops(s, Success(coords), discover, arrivalsFor);
  }

  /** A failed cycle over shown stops renders those same stops under an
      error banner: stale data with a warning, never a blank page. */
  lemma FailedCycleShowsStaleStops(s: Snapshot, location: Result<Coordinates, Exception>,
                                   discover: Coordinates -> Result<NearbyResponse, Exception>,
                                   arrivalsFor: string -> Result<ArrivalsResponse, Exception>,
                                   platformLe: (string, string) -> bool)
    requires s.stopsWithArrivals != []
    requires DiscoveryOutcome(location, discover).Failure?
    requires ErrorText(DiscoveryOutcome(location, discover).error) != ""
    ensures var t := Cycle(s, location, discover, arrivalsFor);
      RenderView(t.stopsWithArrivals, t.isRefreshing, t.loadingMessage, t.error, platformLe)
      == StopList(Some(ErrorText(DiscoveryOutcome(location, discover).error)),
                  StopCards(s.stopsWithArrivals, platformLe))
  {
    var t := Cycle(s, location, discover, arrivalsFor);
    SortByIdempotent(s.stopsWithArrivals, StopDistance);
    assert t.stopsWithArrivals != [] by {
      assert |t.stopsWithArrivals| == |s.stopsWithArrivals|;
    }
  }

  /** Running the cycle again against unchanged services changes nothing. */
  lemma CycleIdempotent(s: Snapshot, location: Result<Coordinates, Exception>,
                        discover: Coordinates -> Result<NearbyResponse, Exception>,
                        arrivalsFor: string -> Result<ArrivalsResponse, Exception>)
    ensures var t := Cycle(s, location, discover, arrivalsFor);
      Cycle(t, location, discover, arrivalsFor) == t
  {
    var t := Cycle(s, location, discover, arrivalsFor);
    CycleOutcome(s, location, discover, arrivalsFor);
    SortBySortedIdentity(t.stopsWithArrivals, StopDistance);
    assert Begin(t).stopsWithArrivals == t.stopsWithArrivals;
    var outcome := DiscoveryOutcome(location, discover);
    if outcome.Failure? || outcome == Success([]) {
      assert |t.stopsWithArrivals| == |s.stopsWithArrivals| by {
        assert multiset(t.stopsWithArrivals) == multiset(s.stopsWithArrivals);
      }
    }
  }


  /** The loading messages set once discovery has an outcome: fetching,
      when stops were found. */
  function SettleMessages(nearby: Result<seq<StopPoint>, Exception>): seq<LoadingMessage>
  {
    if nearby.Success? && nearby.value != [] then [Fetching] else []
  }

  /** The loading messages set once the location is known. */
  function DiscoveryMessages(coords: Coordinates, discover: Coordinates -> Result<NearbyResponse, Exception>)
    : seq<LoadingMessage>
  {
    [Finding] + SettleMessages(Discovered(coords, discover))
  }

  /** The loading messages a cycle sets, in order: locating, then finding
      once a location is known, then fetching once stops are found. */
  function ProgressMessages(location: Result<Coordinates, Exception>,
                            discover: Coordinates -> Result<NearbyResponse, Exception>): seq<LoadingMessage>
  {
    [Locating] + match location
                 case Failure(_) => []
                 case Success(coords) => DiscoveryMessages(coords, discover)
  }

  /** A cycle sets one, two or three messages, always starting with
      locating; the third exactly when discovery found stops; and it ends
      on the last of them. */
  lemma ProgressMessagesShape(s: Snapshot, location: Result<Coordinates, Exception>,
                              discover: Coordinates -> Result<NearbyResponse, Exception>,
                              arrivalsFor: string -> Result<ArrivalsResponse, Exception>)
    ensures var ms := ProgressMessages(location, discover);
      && 1 <= |ms| <= 3 && ms[0] == Locating
      && (|ms| == 1 <==> location.Failure?)
      && (|ms| == 3 <==> DiscoveryOutcome(location, discover).Success? && DiscoveryOutcome(location, discover).value != [])
      && Cycle(s, location, discover, arrivalsFor).loadingMessage == ms[|ms| - 1]
  {
    var ms := ProgressMessages(location, discover);
    match location
    case Failure(_) =>
      assert ms == [Locating];
    case Success(coords) =>
      var nearby := Discovered(coords, discover);
      assert DiscoveryOutcome(location, discover) == nearby;
      if nearby.Success? && nearby.value != [] {
        assert ms == [Locating, Finding, Fetching];
      } else {
        assert ms == [Locating, Finding];
      }
  }

  /** One loading spinner per message. */
  function Spinners(messages: seq<LoadingMessage>): seq<View>
  {
    seq(|messages|, i requires 0 <= i < |messages| => Spinner(messages[i]))
  }

  lemma SpinnersAppend(a: seq<LoadingMessage>, b: seq<LoadingMessage>)
    ensures Spinners(a + b) == Spinners(a) + Spinners(b)
  {
    assert forall i :: 0 <= i < |a + b| ==> Spinners(a + b)[i] == (Spinners(a) + Spinners(b))[i];
  }

  /** The page's `state` record. */
  class State {
    var stopsWithArrivals: seq<StopWithArrivals>
    var isRefreshing: bool
    var loadingMessage: LoadingMessage
    var error: Option<string>

    function Model(): Snapshot
      reads this
    {
      Snapshot(stopsWithArrivals, isRefreshing, loadingMessage, error)
    }

    /** Every `render` leaves the stops in distance order. */
    ghost predicate Valid()
      reads this
    {
      SortedBy(stopsWithArrivals, StopDistance)
    }

    /** The initial record (index.js:9-14). */
    constructor ()
      ensures Valid()
      ensures Model() == Snapshot([], true, Waiting, None)
    {
      stopsWithArrivals := [];
      isRefreshing := true;
      loadingMessage := Waiting;
      error := None;
    }

    /** `render`: computes the view of the current state; building the cards
        sorts the state's own stop array in place. */
    method Render(platformLe: (string, string) -> bool) returns (v: View)
      modifies this`stopsWithArrivals
      ensures Valid()
      ensures stopsWithArrivals == SortBy(old(stopsWithArrivals), StopDistance)
      ensures v == RenderView(old(stopsWithArrivals), isRefreshing, loadingMessage, error, platformLe)
    {
      v := RenderView(stopsWithArrivals, isRefreshing, loadingMessage, error, platformLe);
      if |stopsWithArrivals| > 0 {
        stopsWithArrivals := SortBy(stopsWithArrivals, StopDistance);
      }
    }

    /** The start of a cycle (index.js:197-201): mark the refresh, clear the
        error only when stops are shown, and render. */
    method BeginCycle(platformLe: (string, string) -> bool) returns (v: View)
      modifies this
      ensures Valid()
      ensures Model() == Begin(old(Model()))
      ensures v == RenderView(old(stopsWithArrivals), true, loadingMessage, error, platformLe)
    {
      ghost var s0 := Model();
      isRefreshing := true;
      if |stopsWithArrivals| > 0 {
        error := None;
      }
      assert Model() == Begin(s0).(stopsWithArrivals := s0.stopsWithArrivals);
      v := Render(platformLe);
    }

    /** A progress step (index.js:204-205, 209-210, 219-220): set the loading
        message, and render it only while no stops are shown. */
    method ShowProgress(message: LoadingMessage, platformLe: (string, string) -> bool) returns (shown: seq<View>)
      requires Valid() && isRefreshing
      modifies this
      ensures Valid()
      ensures Model() == old(Model()).(loadingMessage := message)
      ensures shown == if stopsWithArrivals == [] then Spinners([message]) else []
    {
      loadingMessage := message;
      shown := [];
      if |stopsWithArrivals| == 0 {
        var v := Render(platformLe);
        shown := [v];
      }
    }

    /** What the cycle does with the outcome of discovery (index.js:212-232). */
    method SettleSteps(nearby: Result<seq<StopPoint>, Exception>,
                       arrivalsFor: string -> Result<ArrivalsResponse, Exception>,
                       platformLe: (string, string) -> bool)
      returns (shown: seq<View>)
      requires Valid() && isRefreshing
      requires nearby.Success? ==> SortedBy(nearby.value, Distance)
      modifies this
      ensures Valid()
      ensures Model() == Settle(old(Model()), nearby, arrivalsFor)
      ensures shown == if old(stopsWithArrivals) == [] then Spinners(SettleMessages(nearby)) else []
    {
      shown := [];
      match nearby {
        case Failure(e) =>
          error := Some(ErrorText(e));
        case Success(nearbyStops) =>
          if |nearbyStops| == 0 {
            if |stopsWithArrivals| == 0 {
              stopsWithArrivals := [];
            }
          } else {
            shown := ShowProgress(Fetching, platformLe);
            var stopsWithData := WithArrivals(nearbyStops, arrivalsFor);
            WithArrivalsSorted(nearbyStops, arrivalsFor);
            error := None;
            stopsWithArrivals := stopsWithData;
          }
      }
    }

    /** The steps of a cycle once the location is known (index.js:209-232). */
    method DiscoverSteps(coords: Coordinates,
                         discover: Coordinates -> Result<NearbyResponse, Exception>,
                         arrivalsFor: string -> Result<ArrivalsResponse, Exception>,
                         platformLe: (string, string) -> bool)
      returns (progress: seq<View>)
      requires Valid() && isRefreshing
      modifies this
      ensures Valid()
      ensures Model() == Settle(old(Model()).(loadingMessage := Finding), Discovered(coords, discover), arrivalsFor)
      ensures progress == if old(stopsWithArrivals) == [] then Spinners(DiscoveryMessages(coords, discover)) else []
    {
      progress := ShowProgress(Finding, platformLe);
      var nearby := Discovered(coords, discover);
      var shown := SettleSteps(nearby, arrivalsFor, platformLe);
      SpinnersAppend([Finding], SettleMessages(nearby));
      progress := progress + shown;
    }

    /** The `try` block of a cycle and its `catch` (index.js:203-239).
        Returns the spinners rendered on the way. */
    method RunSteps(location: Result<Coordinates, Exception>,
                    discover: Coordinates -> Result<NearbyResponse, Exception>,
                    arrivalsFor: string -> Result<ArrivalsResponse, Exception>,
                    platformLe: (string, string) -> bool)
      returns (progress: seq<View>)
      requires Valid() && isRefreshing
      modifies this
      ensures Valid()
      ensures Model() == Steps(old(Model()), location, discover, arrivalsFor)
      ensures progress == if old(stopsWithArrivals) == [] then Spinners(ProgressMessages(location, discover)) else []
    {
      progress := ShowProgress(Locating, platformLe);
      match location {
        case Failure(e) =>
          error := Some(ErrorText(e));
          assert [Locating] + [] == [Locating];
        case Success(coords) =>
          var rest := DiscoverSteps(coords, discover, arrivalsFor, platformLe);
          SpinnersAppend([Locating], DiscoveryMessages(coords, discover));
          progress := progress + rest;
      }
    }

    /** The `finally` of a cycle (index.js:240-243). */
    method EndCycle(platformLe: (string, string) -> bool) returns (v: View)
      requires Valid()
      modifies this
      ensures Valid()
      ensures Model() == old(Model()).(isRefreshing := false)
      ensures v == RenderView(stopsWithArrivals, false, loadingMessage, error, platformLe)
    {
      isRefreshing := false;
      SortBySortedIdentity(stopsWithArrivals, StopDistance);
      v := Render(platformLe);
    }

    /** `fetchTransportData`: one refresh cycle. Returns the views rendered
        along the way, in order: the cycle's first render, a spinner per
        loading message while no stops are shown, and the final render. */
    method FetchTransportData(location: Result<Coordinates, Exception>,
                              discover: Coordinates -> Result<NearbyResponse, Exception>,
                              arrivalsFor: string -> Result<ArrivalsResponse, Exception>,
                              platformLe: (string, string) -> bool)
      returns (views: seq<View>)
      modifies this
      ensures Valid()
      ensures Model() == Cycle(old(Model()), location, discover, arrivalsFor)
      ensures views == [RenderView(old(stopsWithArrivals), true, old(loadingMessage),
                                   if old(stopsWithArrivals) != [] then None else old(error), platformLe)]
                       + (if old(stopsWithArrivals) == [] then Spinners(ProgressMessages(location, discover)) else [])
                       + [RenderView(stopsWithArrivals, false, loadingMessage, error, platformLe)]
    {
      var first := BeginCycle(platformLe);
      var progress := RunSteps(location, discover, arrivalsFor, platformLe);
      var last := EndCycle(platformLe);
      views := [first] + progress + [last];
    }
  }
}
