/** Ride creation in the `rides` edge function: the required-field check, the
    route distance and duration taken from the directions service (or, when
    the call throws, from a great-circle fallback), and the fare table. The
    directions service's answer, the great-circle distance, the API key and
    `crypto.randomUUID()` are parameters. */
module Rides {
  import opened Json
  import opened Http

  const RequiredFields: seq<string> :=
    ["airport_id", "pickup_location", "pickup_latitude", "pickup_longitude",
     "destination_location", "destination_latitude", "destination_longitude", "vehicle_type"]

  /** The request fields copied unchanged into the new ride. */
  const CopiedFields: set<string> :=
    {"airport_id", "pickup_location", "pickup_latitude", "pickup_longitude",
     "destination_location", "destination_latitude", "destination_longitude", "special_requests"}

  /** Base fare per vehicle type, in naira. */
  const BaseFares: map<string, int> :=
    map["sedan" := 500, "suv" := 800, "luxury" := 1500, "van" := 1000, "bus" := 2000]

  /** Rate per kilometre per vehicle type, in naira. */
  const PerKmRates: map<string, int> :=
    map["sedan" := 150, "suv" := 200, "luxury" := 400, "van" := 250, "bus" := 300]

  /** The request names a vehicle type the tables know. */
  predicate KnownVehicle(vehicleType: Value) {
    vehicleType.Str? && vehicleType.s in BaseFares && vehicleType.s in PerKmRates
  }

  /** `baseFares[vehicle_type] || baseFares.sedan` */
  function BaseFare(vehicleType: Value): int {
    if KnownVehicle(vehicleType) && BaseFares[vehicleType.s] != 0 then BaseFares[vehicleType.s]
    else BaseFares["sedan"]
  }

  /** `perKmRates[vehicle_type] || perKmRates.sedan` */
  function PerKmRate(vehicleType: Value): int {
    if KnownVehicle(vehicleType) && PerKmRates[vehicleType.s] != 0 then PerKmRates[vehicleType.s]
    else PerKmRates["sedan"]
  }

  /** `baseFare + distance_km * perKmRate` */
  function Fare(vehicleType: Value, distanceKm: real): real {
    BaseFare(vehicleType) as real + distanceKm * PerKmRate(vehicleType) as real
  }

  /** The five rows of the fare table. */
  lemma FareTable(distanceKm: real)
    ensures Fare(Str("sedan"), distanceKm) == 500.0 + distanceKm * 150.0
    ensures Fare(Str("suv"), distanceKm) == 800.0 + distanceKm * 200.0
    ensures Fare(Str("luxury"), distanceKm) == 1500.0 + distanceKm * 400.0
    ensures Fare(Str("van"), distanceKm) == 1000.0 + distanceKm * 250.0
    ensures Fare(Str("bus"), distanceKm) == 2000.0 + distanceKm * 300.0
  {
  }

  /** A vehicle type outside the table is charged as a sedan. */
  lemma UnknownVehicleIsSedan(vehicleType: Value, distanceKm: real)
    requires !KnownVehicle(vehicleType)
    ensures Fare(vehicleType, distanceKm) == Fare(Str("sedan"), distanceKm)
  {
  }

  /** A zero-length trip costs exactly the base fare, and a longer trip never
      costs less than a shorter one; every fare is at least the base fare. */
  lemma {:induction false} FareMonotone(vehicleType: Value, d1: real, d2: real)
    requires 0.0 <= d1 <= d2
    ensures Fare(vehicleType, 0.0) == BaseFare(vehicleType) as real
    ensures BaseFare(vehicleType) as real <= Fare(vehicleType, d1) <= Fare(vehicleType, d2)
  {
    var rate := PerKmRate(vehicleType) as real;
    assert rate >= 150.0;
    assert (d2 - d1) * rate >= 0.0;
    assert d1 * rate >= 0.0;
  }

  /** `Math.ceil(x)` */
  function Ceil(x: real): (c: int)
    ensures c as real - 1.0 < x <= c as real
  {
    -((-x).Floor)
  }

  /** One leg of a route: `distance.value` in metres, `duration.value` in seconds. */
  datatype Leg = Leg(distanceMeters: real, durationSeconds: real)

  /** The directions call: it either throws (network failure, unparsable
      body), or answers with `routes` (possibly missing), each route a list of
      legs. */
  datatype Directions = Threw | Answered(routes: seq<seq<Leg>>, hasRoutes: bool)

  /** Which branch of the try/catch the directions answer drives. */
  datatype RouteSource = FirstLeg(leg: Leg) | NoRoute | Fallback

  function RouteSourceOf(directions: Directions): RouteSource {
    match directions
    case Threw => Fallback
    case Answered(routes, hasRoutes) =>
      if !hasRoutes || |routes| == 0 then NoRoute
      // `route.legs[0].distance` on a route without legs throws inside the try
      else if |routes[0]| == 0 then Fallback
      else FirstLeg(routes[0][0])
  }

  /** The `let distance_km = 0, estimated_duration = 0` block and its try/catch. */
  method EstimateRoute(directions: Directions, greatCircleKm: real)
    returns (distanceKm: real, estimatedDuration: int)
    ensures RouteSourceOf(directions).FirstLeg? ==>
      var leg := RouteSourceOf(directions).leg;
      && distanceKm == leg.distanceMeters / 1000.0
      && (estimatedDuration - 1) as real * 60.0 < leg.durationSeconds <= estimatedDuration as real * 60.0
    ensures RouteSourceOf(directions).NoRoute? ==> distanceKm == 0.0 && estimatedDuration == 0
    ensures RouteSourceOf(directions).Fallback? ==>
      && distanceKm == greatCircleKm
      && (estimatedDuration - 1) as real < greatCircleKm * 2.0 <= estimatedDuration as real
  {
    distanceKm := 0.0;
    estimatedDuration := 0;
    var threw := false;
    match directions {
      case Threw =>
        threw := true;
      case Answered(routes, hasRoutes) =>
        if hasRoutes && |routes| > 0 {
          var route := routes[0];
          if |route| == 0 {
            threw := true;
          } else {
            distanceKm := route[0].distanceMeters / 1000.0;
            estimatedDuration := Ceil(route[0].durationSeconds / 60.0);
          }
        }
    }
    if threw {
      distanceKm := greatCircleKm;
      estimatedDuration := Ceil(distanceKm * 2.0);
    }
  }

  /** The row the POST handler inserts. `details` holds the fields copied
      from the request. */
  datatype NewRide = NewRide(
    passengerId: string,
    details: Row,
    distanceKm: real,
    estimatedDuration: int,
    fareAmount: real,
    vehicleType: Value,
    passengerCount: Value,
    qrCode: string,
    scheduledTime: Value)

  /** The request passes both checks that come before the route lookup. */
  predicate Accepted(request: Row, apiKey: string) {
    MissingFields(RequiredFields, request) == [] && apiKey != ""
  }

  /** POST: validate, resolve the route, price it and build the ride. */
  method CreateRide(request: Row, passengerId: string, apiKey: string, directions: Directions,
                    greatCircleKm: real, qrUuid: string)
    returns (reply: Reply<NewRide>)
    ensures MissingFields(RequiredFields, request) != [] ==>
      reply == Fail(400, "Missing required fields", MissingFields(RequiredFields, request))
    ensures MissingFields(RequiredFields, request) == [] && apiKey == "" ==>
      reply == Error(500, "Google Maps API key not configured")
    ensures Accepted(request, apiKey) ==> reply.Ok? && reply.status == 201 && "vehicle_type" in request
    ensures Accepted(request, apiKey) ==>
      reply.body.fareAmount == Fare(request["vehicle_type"], reply.body.distanceKm)
    ensures Accepted(request, apiKey) && RouteSourceOf(directions).NoRoute? ==>
      && reply.body.distanceKm == 0.0 && reply.body.estimatedDuration == 0
      && reply.body.fareAmount == BaseFare(request["vehicle_type"]) as real
    ensures Accepted(request, apiKey) && RouteSourceOf(directions).Fallback? ==>
      && reply.body.distanceKm == greatCircleKm
      && reply.body.estimatedDuration == Ceil(greatCircleKm * 2.0)
    ensures Accepted(request, apiKey) && RouteSourceOf(directions).FirstLeg? ==>
      var leg := RouteSourceOf(directions).leg;
      && reply.body.distanceKm == leg.distanceMeters / 1000.0
      && reply.body.estimatedDuration == Ceil(leg.durationSeconds / 60.0)
    ensures Accepted(request, apiKey) ==>
      && reply.body.passengerId == passengerId
      && reply.body.details == Pick(request, CopiedFields)
      && reply.body.vehicleType == request["vehicle_type"]
      && reply.body.passengerCount == OrElse(request, "passenger_count", Num(1.0))
      && reply.body.qrCode == qrUuid
      && reply.body.scheduledTime == OrElse(request, "scheduled_time", Null)
  {
    var missing := MissingFields(RequiredFields, request);
    if |missing| > 0 {
      return Fail(400, "Missing required fields", missing);
    }
    if apiKey == "" {
      return Error(500, "Google Maps API key not configured");
    }
    VehicleTypePresent(request);
    var distanceKm, estimatedDuration := EstimateRoute(directions, greatCircleKm);
    var vehicleType := request["vehicle_type"];
    var fareAmount := Fare(vehicleType, distanceKm);
    var ride := NewRide(passengerId, Pick(request, CopiedFields), distanceKm, estimatedDuration, fareAmount,
                        vehicleType, OrElse(request, "passenger_count", Num(1.0)), qrUuid,
                        OrElse(request, "scheduled_time", Null));
    reply := Ok(201, ride);
  }

  lemma VehicleTypePresent(request: Row)
    requires MissingFields(RequiredFields, request) == []
    ensures IsTruthy(request, "vehicle_type")
  {
    assert RequiredFields[7] == "vehicle_type";
  }

  /** Coordinates of 0 are reported missing, because 0 is falsy. */
  lemma ZeroCoordinateIsMissing(request: Row, field: string)
    requires field in RequiredFields && field in request && request[field] == Num(0.0)
    ensures field in MissingFields(RequiredFields, request)
  {
  }
}
