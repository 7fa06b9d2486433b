/** The request handler each `registerFunctionsWithExpress` variant posts
    for a route: log, check authorisation, run the auth function, run the
    registered function, check that the result can cross the wire, and map
    anything thrown on the way to a status. How each awaited call settles is
    a parameter. */
module Handler {
  import opened JsValues
  import opened Serializable
  import opened Routes

  /** The calls the handler makes, in order. `withRequest` says whether the
      registered function also receives the request object. */
  datatype Call = LoggerCalled | AuthCalled | FnCalled(withRequest: bool)

  /** How handling ends: a response with a status and a JSON body, or an
      exception thrown inside the catch block itself, after which no
      response is sent. */
  datatype Outcome = Responded(status: Float, body: JsValue) | Unanswered(escaped: JsValue)

  datatype Handling = Handling(outcome: Outcome, calls: seq<Call>)

  function Status(code: int): Float {
    Finite(code as real)
  }

  function Obj1(k: string, v: string): JsValue {
    PlainObj(map[k := Str(v)])
  }

  const NotWireSafe: string := "Error: Return data cannot be passed over the wire. Must be a plain javascript object."

  /** The 401 body of each gated variant. */
  function UnauthorisedBody(v: Variant, authKey: string): JsValue {
    if v.Legacy? then
      PlainObj(map["status" := Str("unauthorized"), "details" := Str("no fnAuthKey defined")])
    else
      PlainObj(map["status" := Str("unauthorized"), "details" := Str("No auth defined for this function. AuthKey: " + authKey)])
  }

  /** `e.statusCode && typeof e.statusCode === 'number' && e.error && e.error instanceof Error`. */
  predicate CarriesStatus(e: JsValue)
    requires !IsNullish(e)
  {
    var sc := GetProp(e, "statusCode").value;
    var err := GetProp(e, "error").value;
    Truthy(sc) && sc.Num? && Truthy(err) && err.Instance? && err.isError
  }

  /** The catch block. Reading `statusCode` off a thrown `undefined` or
      `null` throws again, and that exception leaves the handler with no
      response sent. */
  function Caught(e: JsValue): (o: Outcome)
    ensures o.Unanswered? <==> IsNullish(e)
    ensures o.Unanswered? ==> o.escaped == TypeErrorOnNullish
    ensures !IsNullish(e) && CarriesStatus(e) ==>
      o == Responded(GetProp(e, "statusCode").value.n, Obj1("status", "Error"))
    ensures !IsNullish(e) && !CarriesStatus(e) ==> o == Responded(Status(500), Obj1("error", "Error"))
  {
    match GetProp(e, "statusCode")
    case Thrown(t) => Unanswered(t)
    case Normal(sc) =>
      if Truthy(sc) && sc.Num? && Truthy(GetProp(e, "error").value) && GetProp(e, "error").value.Instance?
         && GetProp(e, "error").value.isError
      then Responded(sc.n, Obj1("status", "Error"))
      else Responded(Status(500), Obj1("error", "Error"))
  }

  function LogCalls(hasLogger: bool): seq<Call> {
    if hasLogger then [LoggerCalled] else []
  }

  /** One request on a route. `authorised` is the `hasAuthFn` the route was
      registered with; `auth` and `result` are how the awaited auth call and
      the awaited registered function settle, consulted only if the handler
      gets that far. */
  function Handle(v: Variant, authorised: bool, hasLogger: bool, authKey: string,
                  auth: Completion, result: Completion): (h: Handling)
    ensures |LogCalls(hasLogger)| <= |h.calls| && h.calls[..|LogCalls(hasLogger)|] == LogCalls(hasLogger)
    ensures AuthCalled in h.calls <==> !v.Open? && authorised
    ensures FnCalled(false) in h.calls <==> !v.Open? && authorised && auth.Normal?
    ensures FnCalled(true) in h.calls <==> v.Open?
    ensures !v.Open? && !authorised ==> h.outcome == Responded(Status(401), UnauthorisedBody(v, authKey))
    ensures !v.Open? && authorised && auth.Thrown? ==> h.outcome == Caught(auth.error)
    ensures (v.Open? || (authorised && auth.Normal?)) && result.Thrown? ==> h.outcome == Caught(result.error)
    ensures !v.Open? && authorised && auth.Normal? && result.Normal? ==>
      h.outcome == if IsSerializable(result.value) then Responded(Status(200), result.value)
                   else Responded(Status(500), Obj1("status", NotWireSafe))
    ensures v.Open? && result.Normal? ==> h.outcome == Responded(Status(200), result.value)
  {
    var logs := LogCalls(hasLogger);
    if v.Open? then
      var calls := logs + [FnCalled(true)];
      assert calls[..|logs|] == logs && calls[|logs|] == FnCalled(true);
      match result
      case Thrown(e) => Handling(Caught(e), calls)
      case Normal(r) => Handling(Responded(Status(200), r), calls)
    else if !authorised then
      assert logs[..|logs|] == logs;
      Handling(Responded(Status(401), UnauthorisedBody(v, authKey)), logs)
    else
      var authed := logs + [AuthCalled];
      assert authed[..|logs|] == logs && authed[|logs|] == AuthCalled;
      match auth
      case Thrown(e) => Handling(Caught(e), authed)
      case Normal(_) =>
        var calls := authed + [FnCalled(false)];
        assert calls[..|logs|] == logs && calls[|logs|] == AuthCalled && calls[|logs| + 1] == FnCalled(false);
        match result
        case Thrown(e) => Handling(Caught(e), calls)
        case Normal(r) =>
          if IsSerializable(r) then Handling(Responded(Status(200), r), calls)
          else Handling(Responded(Status(500), Obj1("status", NotWireSafe)), calls)
  }

  /** Under the auth gate, the function's result reaches the client exactly
      when the route has an auth function, auth passed, the function
      returned and its result can cross the wire. Any other 200 is a caught
      exception that asked for status 200 and carries the fixed error
      body. */
  lemma GatedResultIffAuthorisedAndSerialisable(v: Variant, authorised: bool, hasLogger: bool, authKey: string,
                                                auth: Completion, result: Completion)
    requires !v.Open?
    ensures var h := Handle(v, authorised, hasLogger, authKey, auth, result);
      (FnCalled(false) in h.calls && result.Normal? && h.outcome == Responded(Status(200), result.value))
        <==> authorised && auth.Normal? && result.Normal? && IsSerializable(result.value)
    ensures var h := Handle(v, authorised, hasLogger, authKey, auth, result);
      h.outcome.Responded? && h.outcome.status == Status(200) && h.outcome.body != Obj1("status", "Error") ==>
        authorised && auth.Normal? && result.Normal? && IsSerializable(result.value) && h.outcome.body == result.value
  {
    var h := Handle(v, authorised, hasLogger, authKey, auth, result);
    if authorised && auth.Thrown? {
      CaughtStatusComesFromThrownValue(auth.error);
    } else if authorised && result.Thrown? {
      CaughtStatusComesFromThrownValue(result.error);
    }
  }

  /** The catch block answers with a status other than 500 only when the
      thrown value carries that status as a truthy number next to an
      `Error`. */
  lemma CaughtStatusComesFromThrownValue(e: JsValue)
    ensures Caught(e).Responded? && Caught(e).status != Status(500) ==>
      CarriesStatus(e) && GetProp(e, "statusCode").value == Num(Caught(e).status)
  {
  }

  /** A thrown status of `0` (falsy), `NaN` (falsy), a numeric string (not a
      number) or a status without an `Error` alongside all become 500. */
  lemma MalformedStatusesBecome500(err: JsValue, other: JsValue)
    requires err.Instance? && err.isError
    ensures Caught(PlainObj(map["statusCode" := Num(Status(0)), "error" := err])).status == Status(500)
    ensures Caught(PlainObj(map["statusCode" := Num(NaN), "error" := err])).status == Status(500)
    ensures Caught(PlainObj(map["statusCode" := Str("404"), "error" := err])).status == Status(500)
    ensures Caught(PlainObj(map["statusCode" := Num(Status(404)), "error" := Str("boom")])).status == Status(500)
    ensures Caught(PlainObj(map["statusCode" := Num(Status(404)), "error" := err])).status == Status(404)
  {
  }

  /** The ungated variant of src/index.ts sends whatever the function
      returned, while a gated one passes a returned value through exactly
      when it is serialisable; so a function value, say, gets 200 from the
      first and 500 from the second. */
  lemma OpenVariantSkipsWireCheck(hasLogger: bool, authKey: string, v: Variant, r: JsValue, id: nat)
    requires !v.Open?
    ensures Handle(Open, false, hasLogger, authKey, Normal(Undefined), Normal(r)).outcome == Responded(Status(200), r)
    ensures Handle(v, true, hasLogger, authKey, Normal(Undefined), Normal(r)).outcome == Responded(Status(200), r)
      <==> IsSerializable(r)
    ensures Handle(v, true, hasLogger, authKey, Normal(Undefined), Normal(Func(id, map[]))).outcome
         == Responded(Status(500), Obj1("status", NotWireSafe))
  {
  }
}
