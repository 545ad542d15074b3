/**
 * `/api/hospitals`: validates the caller's coordinates and forwards them to the
 * `get_hospitals` database function, whose ranking is external; its answer is a
 * parameter.
 */
module HospitalsRoute {
  import opened Common

  /** The request body: not JSON, or the three fields the route reads. */
  datatype Request = Unparsable | Body(latitude: Value, longitude: Value, searchTerm: Value)

  /** The arguments of `rpc('get_hospitals', ...)`. */
  datatype RpcArgs = RpcArgs(userLat: Value, userLon: Value, searchTerm: Value)

  datatype ResponseBody = Hospitals(rows: seq<NearbyHospital>) | ErrorBody(error: string)

  const MissingCoordinates := "Latitude and longitude are required."

  /** The argument mapping: coordinates passed as they came, a falsy search term as `null`. */
  function Arguments(req: Request): (args: RpcArgs)
    requires req.Body?
    ensures args.userLat == req.latitude && args.userLon == req.longitude
    ensures args.searchTerm == (if Truthy(req.searchTerm) then req.searchTerm else Null)
  {
    RpcArgs(req.latitude, req.longitude, OrElse(req.searchTerm, Null))
  }

  datatype Result = Result(response: Response<ResponseBody>, rpcCalls: seq<RpcArgs>)

  /**
   * `POST`. Reading the body runs outside the `try`, so an unparsable body
   * escapes the handler. A falsy latitude or longitude is a 400 and no call;
   * otherwise the database function is called once and its rows are returned
   * as they came, or its error's message with 500.
   */
  function FindHospitals(req: Request, rpc: Outcome<seq<NearbyHospital>>): (res: Result)
    ensures req.Unparsable? ==> res == Result(Unhandled, [])
    ensures req.Body? && (!Truthy(req.latitude) || !Truthy(req.longitude)) ==>
      res == Result(Json(400, ErrorBody(MissingCoordinates)), [])
    ensures req.Body? && Truthy(req.latitude) && Truthy(req.longitude) ==>
      && res.rpcCalls == [Arguments(req)]
      && (rpc.Done? ==> res.response == Json(200, Hospitals(rpc.value)))
      && (rpc.Failed? ==> res.response == Json(500, ErrorBody(CaughtMessage(rpc.error))))
  {
    if req.Unparsable? then Result(Unhandled, [])
    else if !Truthy(req.latitude) || !Truthy(req.longitude) then Result(Json(400, ErrorBody(MissingCoordinates)), [])
    else
      var calls := [Arguments(req)];
      match rpc
      case Done(rows) => Result(Json(200, Hospitals(rows)), calls)
      case Failed(e) => Result(Json(500, ErrorBody(CaughtMessage(e))), calls)
  }

  /** The database is called exactly when the answer is neither a rejection of the body nor a 400. */
  lemma CalledIffValid(req: Request, rpc: Outcome<seq<NearbyHospital>>)
    ensures var res := FindHospitals(req, rpc);
      res.rpcCalls != [] <==> res.response.Json? && res.response.status != 400
  {
  }

  /**
   * The check is on truthiness, not presence: a position exactly on the equator
   * or on the prime meridian is rejected like a missing one, while a coordinate
   * sent as a non-empty string passes.
   */
  lemma ZeroCoordinateRejected(lat: real, lon: real, searchTerm: Value, rpc: Outcome<seq<NearbyHospital>>,
                               latText: string, lonText: string)
    ensures FindHospitals(Body(Num(0.0), Num(lon), searchTerm), rpc).response.status == 400
    ensures FindHospitals(Body(Num(lat), Num(0.0), searchTerm), rpc).response.status == 400
    ensures lat != 0.0 && lon != 0.0 ==>
      FindHospitals(Body(Num(lat), Num(lon), searchTerm), rpc).rpcCalls == [RpcArgs(Num(lat), Num(lon), OrElse(searchTerm, Null))]
    ensures FindHospitals(Body(Str("0"), Str("0"), searchTerm), rpc).rpcCalls != []
    ensures latText != "" && lonText != "" ==>
      FindHospitals(Body(Str(latText), Str(lonText), searchTerm), rpc).rpcCalls != []
  {
  }

  /** Without a search term, or with an empty one, the database sees `null`. */
  lemma EmptySearchIsNull(lat: Value, lon: Value)
    ensures Arguments(Body(lat, lon, Missing)).searchTerm == Null
    ensures Arguments(Body(lat, lon, Str(""))).searchTerm == Null
  {
  }
}
