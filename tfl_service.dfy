/** The transit client (services/tflService.js) once its network and JSON
    I/O are removed: a response body goes in, and what the client returns or
    throws comes out. */
module TflService {
  import opened Common
  import opened Sorting

  /** One entry of a stop's `additionalProperties` list. */
  datatype KeyValue = KeyValue(key: string, value: string)

  /** A stop point as the StopPoint endpoint returns it. `towards` and
      `direction` are the fields the client adds to each stop. */
  datatype StopPoint = StopPoint(
    id: string,
    commonName: string,
    stopType: string,
    distance: int,
    status: Option<bool>,
    stopLetter: Option<string>,
    additionalProperties: Option<seq<KeyValue>>,
    towards: Option<string>,
    direction: Option<string>)

  /** One predicted arrival; an empty `platformName` or `towards` stands for
      a missing one. */
  datatype Arrival = Arrival(
    lineId: string,
    lineName: string,
    platformName: string,
    towards: string,
    destinationName: string,
    timeToStation: int)

  /** The discovery response: an OK status with the parsed body's
      `stopPoints` (possibly missing), or a non-OK status with the parsed
      error body's `message` (possibly missing). */
  datatype NearbyResponse =
    | NearbyOk(stopPoints: Option<seq<StopPoint>>)
    | NearbyNotOk(message: Option<string>)

  /** The arrivals response: an OK status with the parsed array, or non-OK. */
  datatype ArrivalsResponse = ArrivalsOk(data: seq<Arrival>) | ArrivalsNotOk

  const MaxNearbyStops: nat := 10
  const NearbyFailureMessage := "Failed to fetch nearby stops"
  const TowardsKey := "Towards"
  const CompassPointKey := "CompassPoint"

  function Distance(s: StopPoint): int { s.distance }

  function TimeToStation(a: Arrival): int { a.timeToStation }

  /** `props.find(prop => prop.key === key)`, giving the found entry's value. */
  function FindProperty(props: seq<KeyValue>, key: string): (r: Option<string>)
    ensures r.None? <==> forall i :: 0 <= i < |props| ==> props[i].key != key
  {
    if props == [] then None
    else if props[0].key == key then Some(props[0].value)
    else FindProperty(props[1..], key)
  }

  /** The value found is that of the FIRST entry with the key. */
  lemma {:induction false} FindPropertyIsFirst(props: seq<KeyValue>, key: string)
    requires FindProperty(props, key).Some?
    ensures exists i :: 0 <= i < |props| && props[i] == KeyValue(key, FindProperty(props, key).value)
                        && forall j :: 0 <= j < i ==> props[j].key != key
  {
    if props[0].key != key {
      FindPropertyIsFirst(props[1..], key);
      var i :| 0 <= i < |props[1..]| && props[1..][i] == KeyValue(key, FindProperty(props[1..], key).value)
               && forall j :: 0 <= j < i ==> props[1..][j].key != key;
      assert props[i + 1] == props[1..][i];
      assert forall j :: 1 <= j < i + 1 ==> props[j] == props[1..][j - 1];
    }
  }

  /** `stop.additionalProperties || []`. */
  function Properties(stop: StopPoint): seq<KeyValue>
  {
    match stop.additionalProperties
    case Some(props) => props
    case None => []
  }

  /** `{ ...stop, towards, direction }`: adds (or overwrites) exactly the two
      derived fields and keeps every other field. */
  function Enrich(stop: StopPoint): (r: StopPoint)
    ensures r.(towards := stop.towards, direction := stop.direction) == stop
    ensures r.towards == FindProperty(Properties(stop), TowardsKey)
    ensures r.direction == FindProperty(Properties(stop), CompassPointKey)
  {
    stop.(towards := FindProperty(Properties(stop), TowardsKey),
          direction := FindProperty(Properties(stop), CompassPointKey))
  }

  /** The enriched stops sorted by distance, before truncation. */
  function RankedStops(stopPoints: seq<StopPoint>): seq<StopPoint>
  {
    SortBy(Map(stopPoints, Enrich), Distance)
  }

  /** `processedStopPoints.sort(byDistance).slice(0, 10)`: the nearest ten
      enriched stops, nearest first. */
  function NearestStops(stopPoints: seq<StopPoint>): (r: seq<StopPoint>)
    ensures |r| == Min(MaxNearbyStops, |stopPoints|)
    ensures SortedBy(r, Distance)
    ensures r == RankedStops(stopPoints)[..|r|]
    ensures multiset(r) <= multiset(Map(stopPoints, Enrich))
    ensures forall i, y :: 0 <= i < |r| && y in multiset(Map(stopPoints, Enrich)) - multiset(r)
                           ==> r[i].distance <= y.distance
  {
    var ranked := RankedStops(stopPoints);
    var n := Min(MaxNearbyStops, |ranked|);
    SortedPrefixNearest(ranked, Distance, n);
    ranked[..n]
  }

  /** The non-I/O part of `fetchNearbyStops`: a non-OK response throws an
      Error carrying the service's message or the fixed fallback; a missing
      or empty `stopPoints` gives no stops; otherwise the nearest stops. */
  function FetchNearbyStops(resp: NearbyResponse): (r: Result<seq<StopPoint>, Exception>)
    ensures r.Failure? <==> resp.NearbyNotOk?
    ensures resp.NearbyNotOk? && resp.message.Some? && resp.message.value != ""
            ==> r == Failure(ErrorObject(resp.message.value))
    ensures resp.NearbyNotOk? && (resp.message.None? || resp.message.value == "")
            ==> r == Failure(ErrorObject(NearbyFailureMessage))
    ensures resp.NearbyOk? && (resp.stopPoints.None? || resp.stopPoints.value == []) ==> r == Success([])
    ensures resp.NearbyOk? && resp.stopPoints.Some? ==> r == Success(NearestStops(resp.stopPoints.value))
    ensures r.Success? ==> |r.value| <= MaxNearbyStops && SortedBy(r.value, Distance)
  {
    match resp
    case NearbyNotOk(message) =>
      if message.Some? && message.value != "" then Failure(ErrorObject(message.value))
      else Failure(ErrorObject(NearbyFailureMessage))
    case NearbyOk(stopPoints) =>
      if stopPoints.None? || stopPoints.value == [] then Success([])
      else Success(NearestStops(stopPoints.value))
  }

  /** The non-I/O part of `fetchArrivalsForStop`: a non-OK response gives no
      arrivals instead of throwing; an OK one gives the payload reordered by
      ascending time to station, equal times keeping their order. */
  function FetchArrivalsForStop(resp: ArrivalsResponse): (r: seq<Arrival>)
    ensures resp.ArrivalsNotOk? ==> r == []
    ensures resp.ArrivalsOk? ==> multiset(r) == multiset(resp.data) && SortedBy(r, TimeToStation)
    ensures resp.ArrivalsOk? ==> forall t :: KeyFilter(r, TimeToStation, t) == KeyFilter(resp.data, TimeToStation, t)
  {
    match resp
    case ArrivalsNotOk => []
    case ArrivalsOk(data) =>
      forall t ensures KeyFilter(SortBy(data, TimeToStation), TimeToStation, t) == KeyFilter(data, TimeToStation, t) {
        SortByStable(data, TimeToStation, t);
      }
      SortBy(data, TimeToStation)
  }
}
