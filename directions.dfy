/** The directions and geocoding endpoints after their HTTP call: a decoded directions payload is
    shaped into route records with distance and fare, and a decoded geocoding payload into one
    coordinate pair. */
module Directions {
  import opened Wrappers

  // ---------------------------------------------------------------------------
  // Decoded payloads (only the fields read) and the records produced
  // ---------------------------------------------------------------------------

  /** A step's distance: display text and whole metres. */
  datatype Distance = Distance(text: string, value: int)
  /** A step's duration: display text. */
  datatype Duration = Duration(text: string)
  datatype Step = Step(htmlInstructions: string, distance: Distance, duration: Duration)
  datatype Leg = Leg(steps: seq<Step>)
  datatype Route = Route(summary: string, legs: seq<Leg>)
  datatype DirectionsPayload = DirectionsPayload(status: string, routes: seq<Route>)

  datatype StepRecord = StepRecord(instruction: string, distance: string, duration: string)
  datatype RouteRecord = RouteRecord(summary: string, totalDistanceKm: real, estimatedFare: real, steps: seq<StepRecord>)

  /** An HTTP error answer: status code and detail text. */
  datatype HttpError = HttpError(statusCode: int, detail: string)

  const FarePerKm: real := 15.0
  const DirectionsRejected: HttpError := HttpError(400, "Invalid request or API error")
  const AddressRejected: HttpError := HttpError(400, "Invalid address or API error")
  /** What the web framework answers when the handler raises (an index out of range). */
  const HandlerCrashed: HttpError := HttpError(500, "Internal Server Error")

  // ---------------------------------------------------------------------------
  // Steps, distance and fare
  // ---------------------------------------------------------------------------

  /** The three fields a step record copies. */
  function ShapeStep(s: Step): StepRecord {
    StepRecord(s.htmlInstructions, s.distance.text, s.duration.text)
  }

  /** The step records of a leg, built front to back. */
  function ShapeSteps(steps: seq<Step>): seq<StepRecord>
    decreases |steps|
  {
    if |steps| == 0 then [] else ShapeSteps(steps[..|steps| - 1]) + [ShapeStep(steps[|steps| - 1])]
  }

  /** One step record per step, in the same order, each copying the instruction, the distance text
      and the duration text of its step. */
  lemma {:induction false} ShapeStepsCopies(steps: seq<Step>)
    ensures |ShapeSteps(steps)| == |steps|
    ensures forall i :: 0 <= i < |steps| ==>
              ShapeSteps(steps)[i] == StepRecord(steps[i].htmlInstructions, steps[i].distance.text, steps[i].duration.text)
    decreases |steps|
  {
    if |steps| > 0 {
      ShapeStepsCopies(steps[..|steps| - 1]);
    }
  }

  /** Sum of the step distances in metres, accumulated front to back. */
  function TotalMetres(steps: seq<Step>): int
    decreases |steps|
  {
    if |steps| == 0 then 0 else TotalMetres(steps[..|steps| - 1]) + steps[|steps| - 1].distance.value
  }

  /** Total distance of the steps in kilometres. */
  function TotalKm(steps: seq<Step>): real {
    (TotalMetres(steps) as real) / 1000.0
  }

  /** Every step distance is non-negative. */
  predicate NonNegativeDistances(steps: seq<Step>) {
    forall i :: 0 <= i < |steps| ==> steps[i].distance.value >= 0
  }

  /** With non-negative step distances the total is non-negative and at least each step's distance. */
  lemma {:induction false} TotalMetresBounds(steps: seq<Step>)
    requires NonNegativeDistances(steps)
    ensures TotalMetres(steps) >= 0
    ensures forall i :: 0 <= i < |steps| ==> steps[i].distance.value <= TotalMetres(steps)
    decreases |steps|
  {
    if |steps| > 0 {
      var init := steps[..|steps| - 1];
      assert NonNegativeDistances(init);
      TotalMetresBounds(init);
    }
  }

  /** Python's `round(x)` on an exact value: to the nearest integer, ties to the even neighbour. */
  function RoundHalfEven(x: real): (n: int)
    ensures x - 0.5 <= n as real <= x + 0.5
    ensures x - x.Floor as real != 0.5 ==> x - 0.5 < n as real < x + 0.5
    ensures x - x.Floor as real == 0.5 ==> n % 2 == 0
  {
    var f := x.Floor;
    var d := x - f as real;
    if d < 0.5 then f
    else if d > 0.5 then f + 1
    else if f % 2 == 0 then f
    else f + 1
  }

  /** Rounding to the nearest integer never reverses an order. */
  lemma RoundHalfEvenMonotone(x: real, y: real)
    requires x <= y
    ensures RoundHalfEven(x) <= RoundHalfEven(y)
  {
    var fx, fy := x.Floor, y.Floor;
    assert fx <= fy;
    if fx < fy {
      assert RoundHalfEven(x) <= fx + 1 <= fy <= RoundHalfEven(y);
    }
  }

  /** Python's `round(x, 2)` on an exact value: to whole hundredths, ties to the even hundredth. */
  function RoundCents(x: real): (r: real)
    ensures x - 0.005 <= r <= x + 0.005
    ensures (r * 100.0).Floor as real == r * 100.0
  {
    var n := RoundHalfEven(x * 100.0);
    assert (n as real / 100.0) * 100.0 == n as real;
    assert (n as real).Floor == n;
    n as real / 100.0
  }

  /** Ties go to the even hundredth, as Python's `round(x, 2)` does on these exactly representable halves. */
  lemma RoundCentsTies()
    ensures RoundCents(0.125) == 0.12
    ensures RoundCents(0.375) == 0.38
  {
    assert (12.5 as real).Floor == 12;
    assert (37.5 as real).Floor == 37;
  }

  /** The fare for a distance: the rate per kilometre times the distance, rounded to hundredths. */
  function EstimatedFare(km: real): (fare: real)
    ensures km * FarePerKm - 0.005 <= fare <= km * FarePerKm + 0.005
    ensures (fare * 100.0).Floor as real == fare * 100.0
  {
    RoundCents(km * FarePerKm)
  }

  /** A longer trip never costs less. */
  lemma FareMonotone(km1: real, km2: real)
    requires km1 <= km2
    ensures EstimatedFare(km1) <= EstimatedFare(km2)
  {
    RoundHalfEvenMonotone(km1 * FarePerKm * 100.0, km2 * FarePerKm * 100.0);
  }

  /** No distance, no fare; ten kilometres cost 150. */
  lemma FareExamples()
    ensures EstimatedFare(0.0) == 0.0
    ensures EstimatedFare(10.0) == 150.0
  {
    assert RoundHalfEven(0.0) == 0;
    assert (0.0 as real).Floor == 0;
    assert (15000.0 as real).Floor == 15000;
  }

  /** A non-negative distance has a non-negative fare. */
  lemma FareNonNegative(km: real)
    requires km >= 0.0
    ensures EstimatedFare(km) >= 0.0
  {
    FareMonotone(0.0, km);
    FareExamples();
  }

  // ---------------------------------------------------------------------------
  // Routes
  // ---------------------------------------------------------------------------

  /** Every route has a first leg to read its steps from. */
  predicate AllHaveLegs(routes: seq<Route>) {
    forall i :: 0 <= i < |routes| ==> |routes[i].legs| > 0
  }

  /** The record for one route: its summary, its first leg's steps, their total distance and the fare. */
  function ShapeRoute(route: Route): RouteRecord
    requires |route.legs| > 0
  {
    var steps := route.legs[0].steps;
    RouteRecord(route.summary, TotalKm(steps), EstimatedFare(TotalKm(steps)), ShapeSteps(steps))
  }

  /** The records of the routes, built front to back. */
  function ShapeRoutes(routes: seq<Route>): seq<RouteRecord>
    requires AllHaveLegs(routes)
    decreases |routes|
  {
    if |routes| == 0 then [] else ShapeRoutes(routes[..|routes| - 1]) + [ShapeRoute(routes[|routes| - 1])]
  }

  /** One record per route, in the same order, each the record of its route. */
  lemma {:induction false} ShapeRoutesInOrder(routes: seq<Route>)
    requires AllHaveLegs(routes)
    ensures |ShapeRoutes(routes)| == |routes|
    ensures forall i :: 0 <= i < |routes| ==> ShapeRoutes(routes)[i] == ShapeRoute(routes[i])
    decreases |routes|
  {
    if |routes| > 0 {
      ShapeRoutesInOrder(routes[..|routes| - 1]);
    }
  }

  /** What the directions endpoint answers for a decoded payload: the 400 error unless the status is
      "OK", a server error when some route has no leg, and otherwise the records of all routes. */
  function ShapeDirections(data: DirectionsPayload): (r: Result<seq<RouteRecord>, HttpError>)
    ensures data.status != "OK" ==> r == Failure(DirectionsRejected)
    ensures data.status == "OK" && !AllHaveLegs(data.routes) ==> r == Failure(HandlerCrashed)
    ensures r.Success? <==> data.status == "OK" && AllHaveLegs(data.routes)
  {
    if data.status != "OK" then Failure(DirectionsRejected)
    else if !AllHaveLegs(data.routes) then Failure(HandlerCrashed)
    else Success(ShapeRoutes(data.routes))
  }

  /** A successful answer has one record per route, in order; record i carries route i's summary, the
      records of its first leg's steps (one per step, same order, fields copied), their total distance
      in km and the fare for that distance. */
  lemma DirectionsRecord(data: DirectionsPayload, i: nat)
    requires ShapeDirections(data).Success? && i < |data.routes|
    ensures var records := ShapeDirections(data).value;
            var steps := data.routes[i].legs[0].steps;
            && |records| == |data.routes|
            && records[i].summary == data.routes[i].summary
            && records[i].steps == ShapeSteps(steps)
            && |records[i].steps| == |steps|
            && records[i].totalDistanceKm == TotalKm(steps)
            && records[i].estimatedFare == EstimatedFare(records[i].totalDistanceKm)
  {
    ShapeRoutesInOrder(data.routes);
    ShapeStepsCopies(data.routes[i].legs[0].steps);
  }

  /** Only the first leg of a route is read: further legs change nothing in its record. */
  lemma OnlyFirstLegUsed(summary: string, first: Leg, more: seq<Leg>)
    ensures ShapeRoute(Route(summary, [first] + more)) == ShapeRoute(Route(summary, [first]))
  {
  }

  /** Every record's distance and fare are non-negative when the step distances are. */
  lemma RecordsNonNegative(data: DirectionsPayload, i: nat)
    requires ShapeDirections(data).Success? && i < |data.routes|
    requires NonNegativeDistances(data.routes[i].legs[0].steps)
    ensures |ShapeDirections(data).value| == |data.routes|
    ensures ShapeDirections(data).value[i].totalDistanceKm >= 0.0
    ensures ShapeDirections(data).value[i].estimatedFare >= 0.0
  {
    DirectionsRecord(data, i);
    TotalMetresBounds(data.routes[i].legs[0].steps);
    FareNonNegative(TotalKm(data.routes[i].legs[0].steps));
  }

  /** The inner loop of the directions endpoint: walk a leg's steps, copying each into a record and
      adding its distance in kilometres to the running total. */
  method ShapeLeg(legSteps: seq<Step>) returns (steps: seq<StepRecord>, totalDistance: real)
    ensures steps == ShapeSteps(legSteps)
    ensures totalDistance == TotalKm(legSteps)
  {
    totalDistance := 0.0;
    steps := [];
    for j := 0 to |legSteps|
      invariant totalDistance == TotalKm(legSteps[..j])
      invariant steps == ShapeSteps(legSteps[..j])
    {
      var step := legSteps[j];
      var stepDistance := (step.distance.value as real) / 1000.0;
      totalDistance := totalDistance + stepDistance;
      steps := steps + [StepRecord(step.htmlInstructions, step.distance.text, step.duration.text)];
      assert legSteps[..j + 1][..j] == legSteps[..j];
    }
    assert legSteps[..|legSteps|] == legSteps;
  }

  /** The shaping loop of the directions endpoint: check the status, then build one record per route,
      in order, from its first leg. */
  method GetDirections(data: DirectionsPayload) returns (result: Result<seq<RouteRecord>, HttpError>)
    ensures result == ShapeDirections(data)
  {
    if data.status != "OK" {
      return Failure(DirectionsRejected);
    }
    var routes: seq<RouteRecord> := [];
    for i := 0 to |data.routes|
      invariant AllHaveLegs(data.routes[..i])
      invariant routes == ShapeRoutes(data.routes[..i])
    {
      var route := data.routes[i];
      if |route.legs| == 0 {
        assert |data.routes[i].legs| == 0;
        return Failure(HandlerCrashed);
      }
      var steps, totalDistance := ShapeLeg(route.legs[0].steps);
      var estimatedFare := RoundCents(totalDistance * FarePerKm);
      var record := RouteRecord(route.summary, totalDistance, estimatedFare, steps);
      assert record == ShapeRoute(route);
      ghost var done := data.routes[..i + 1];
      assert done[..i] == data.routes[..i] && done[i] == route;
      routes := routes + [record];
    }
    assert data.routes[..|data.routes|] == data.routes;
    result := Success(routes);
  }

  // ---------------------------------------------------------------------------
  // Geocoding
  // ---------------------------------------------------------------------------

  datatype LatLng = LatLng(lat: real, lng: real)
  datatype Geometry = Geometry(location: LatLng)
  datatype GeocodeResult = GeocodeResult(geometry: Geometry)
  datatype GeocodePayload = GeocodePayload(status: string, results: seq<GeocodeResult>)
  datatype Coordinates = Coordinates(latitude: real, longitude: real)

  /** What the geocoding endpoint answers for a decoded payload: the location of the first result. */
  function Geocode(data: GeocodePayload): (r: Result<Coordinates, HttpError>)
    ensures data.status != "OK" ==> r == Failure(AddressRejected)
    ensures data.status == "OK" && data.results == [] ==> r == Failure(HandlerCrashed)
    ensures r.Success? <==> data.status == "OK" && data.results != []
    ensures r.Success? ==>
              && r.value.latitude == data.results[0].geometry.location.lat
              && r.value.longitude == data.results[0].geometry.location.lng
  {
    if data.status != "OK" then Failure(AddressRejected)
    else if |data.results| == 0 then Failure(HandlerCrashed)
    else
      var location := data.results[0].geometry.location;
      Success(Coordinates(location.lat, location.lng))
  }

  /** Results after the first never affect the answer. */
  lemma GeocodeUsesFirstResult(status: string, first: GeocodeResult, more: seq<GeocodeResult>)
    ensures Geocode(GeocodePayload(status, [first] + more)) == Geocode(GeocodePayload(status, [first]))
  {
  }
}
