/** The request-time half of an endpoint (src/index.ts:60-98): what the
    adapter installed on the router does with one request. The router, the
    response object and the asynchronous machinery are left out; the
    handler's settled promise is an input. */
module Transport {
  import opened Wrappers
  import opened Js
  import opened Types
  import opened Utils

  /** The parts of an incoming request the adapter reads: the route
      parameters, the parsed query string, the parsed body and the value of
      the `x-auth` header (`None` when the header is missing). */
  datatype Request = Request(
    params: map<string, string>,
    query: JsValue,
    body: JsValue,
    authHeader: Option<string>)

  /** A thrown value, through the two properties the adapter reads. */
  datatype Thrown = Thrown(status: Option<int>, message: Option<string>)

  /** How the handler's promise settled: with a value, by throwing an object,
      or by throwing `null` or `undefined`, whose `status` cannot be read. */
  datatype HandlerOutcome = Resolved(value: JsValue) | Rejected(thrown: Thrown) | RejectedNullish

  /** What is sent: nothing, the handler's result, or `{error: message}`. */
  datatype Body = NoBody | Payload(value: JsValue) | ErrorBody(error: Option<string>)

  datatype Response = Response(status: int, body: Body)

  /** The status `res.send` uses when none was set. */
  const DefaultStatus: int := 200

  /** The status used for a thrown value without a usable status. */
  const InternalError: int := 500

  const NotFound: int := 404

  /** The argument bag handed to the handler: the route parameters when path
      parameters are declared, the whole query under the query group's name
      when a query group is declared, the whole body under the body's name
      when a body is declared; a later source wins on a shared key. */
  function ArgumentBag(config: Endpoint, req: Request): (args: map<string, JsValue>)
    ensures forall k :: k in args <==>
      || (config.parameters.Some? && k in req.params)
      || (config.query.Some? && k == config.query.value.name)
      || (config.body.Some? && k == config.body.value.name)
    ensures config.body.Some? ==> args[config.body.value.name] == req.body
    ensures config.query.Some? && !(config.body.Some? && config.body.value.name == config.query.value.name)
            ==> args[config.query.value.name] == req.query
    ensures forall k ::
      (k in args && !(config.query.Some? && k == config.query.value.name)
                 && !(config.body.Some? && k == config.body.value.name))
      ==> k in req.params && args[k] == Str(req.params[k])
  {
    var fromParams := if config.parameters.Some? then RouteParams(req) else map[];
    var withQuery := if config.query.Some? then fromParams[config.query.value.name := req.query] else fromParams;
    if config.body.Some? then withQuery[config.body.value.name := req.body] else withQuery
  }

  /** The route parameters as string values. */
  function RouteParams(req: Request): (m: map<string, JsValue>)
    ensures m.Keys == req.params.Keys
    ensures forall k :: k in m ==> m[k] == Str(req.params[k])
  {
    map k | k in req.params :: Str(req.params[k])
  }

  /** Builds the argument bag as the adapter does, by successive spreads
      into a fresh object. */
  method BuildArgs(config: Endpoint, req: Request) returns (args: map<string, JsValue>)
    ensures args == ArgumentBag(config, req)
  {
    args := map[];
    if config.parameters.Some? {
      args := args + RouteParams(req);
      assert args == RouteParams(req);
    }
    ghost var fromParams := args;
    if config.query.Some? {
      args := args + map[config.query.value.name := req.query];
      assert args == fromParams[config.query.value.name := req.query];
    }
    ghost var withQuery := args;
    if config.body.Some? {
      args := args + map[config.body.value.name := req.body];
      assert args == withQuery[config.body.value.name := req.body];
    }
  }

  /** The context handed to the handler: `null` unless the endpoint declares
      a non-empty `auth`; otherwise the parsed `x-auth` header, which throws
      when the header is missing or has fewer than three fields. */
  function RequestContext(config: Endpoint, header: Option<string>): (r: Result<Option<Context>, Error>)
    ensures !TruthyString(config.auth) ==> r == Success(None)
    ensures TruthyString(config.auth) && header.None? ==> r == Failure(TypeError)
    ensures TruthyString(config.auth) && header.Some? ==>
      (r.Success? <==> Count(header.value, ';') >= 2)
    ensures TruthyString(config.auth) && header.Some? && Count(header.value, ';') >= 2 ==>
      r == Success(Some(ExtractContextFromToken(header.value).value))
    ensures TruthyString(config.auth) && header.Some? && Count(header.value, ';') < 2 ==>
      r == Failure(TypeError)
    ensures r.Success? && r.value.Some? ==>
      TruthyString(config.auth) && header.Some? && ExtractContextFromToken(header.value) == Success(r.value.value)
  {
    if !TruthyString(config.auth) then Success(None)
    else match header
      case None => Failure(TypeError)
      case Some(token) =>
        match ExtractContextFromToken(token)
        case Success(ctx) => Success(Some(ctx))
        case Failure(e) => Failure(e)
  }

  /** The response for a settled handler: a GET whose result is `null` or
      `undefined` gets 404 and no body; any other result is sent with the
      default status; a thrown object gets its status if that is truthy, else
      500, and `{error: message}`. Reading the status of a thrown `null` or
      `undefined` throws a `TypeError` inside the `catch`, and no response is
      chosen. */
  function SelectResponse(verb: string, outcome: HandlerOutcome): (r: Result<Response, Error>)
    ensures r.Failure? <==> outcome.RejectedNullish?
    ensures r.Failure? ==> r.error == TypeError
    ensures r.Success? ==> r.value.status != 0
    ensures r.Success? ==> ((r.value.status == NotFound && r.value.body == NoBody) <==>
      (outcome.Resolved? && IsNullish(outcome.value) && ToUpper(verb) == "GET"))
    ensures outcome.Resolved? && !(IsNullish(outcome.value) && ToUpper(verb) == "GET") ==>
      r == Success(Response(DefaultStatus, Payload(outcome.value)))
    ensures outcome.Rejected? ==> r.Success? && r.value.body == ErrorBody(outcome.thrown.message)
    ensures outcome.Rejected? && TruthyNumber(outcome.thrown.status) ==> r.Success? && r.value.status == outcome.thrown.status.value
    ensures outcome.Rejected? && !TruthyNumber(outcome.thrown.status) ==> r.Success? && r.value.status == InternalError
  {
    match outcome
    case Resolved(v) =>
      if ToUpper(verb) == "GET" && IsNullish(v) then Success(Response(NotFound, NoBody))
      else Success(Response(DefaultStatus, Payload(v)))
    case Rejected(e) =>
      Success(Response(if TruthyNumber(e.status) then e.status.value else InternalError, ErrorBody(e.message)))
    case RejectedNullish =>
      Failure(TypeError)
  }

  /** One request through the adapter: build the arguments, read the
      context, run the handler and choose the response. A failure to read the
      context happens before the adapter's `try`, and a failure to read a
      thrown value's status happens inside its `catch`: both escape the
      adapter, and no response is chosen here. */
  method HandleRequest(
    config: Endpoint,
    verb: string,
    req: Request,
    handler: (map<string, JsValue>, Option<Context>) -> HandlerOutcome)
    returns (r: Result<Response, Error>)
    ensures RequestContext(config, req.authHeader).Failure? ==> r == Failure(RequestContext(config, req.authHeader).error)
    ensures RequestContext(config, req.authHeader).Success? ==>
      r == SelectResponse(verb, handler(ArgumentBag(config, req), RequestContext(config, req.authHeader).value))
    ensures r.Failure? ==> r.error == TypeError
  {
    var args := BuildArgs(config, req);
    var context := RequestContext(config, req.authHeader);
    if context.Failure? {
      return Failure(context.error);
    }
    var outcome := handler(args, context.value);
    r := SelectResponse(verb, outcome);
  }
}
