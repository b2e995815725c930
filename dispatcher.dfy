/**
 * The gateway's per-request handler for one registered route: client
 * address limits, parameters, body, authentication, user limits, the
 * backend call and the mapping of its result to an HTTP response, in that
 * fixed order.
 */
module Dispatcher {
  import opened Base
  import opened Proto
  import opened Wire
  import opened RateLimit
  import opened Discovery
  import opened Transcode

  /** The identity an authentication check yields. */
  datatype User = User(id: string)

  /** Who a backend call is made for: the anonymous user, or an inspected user. */
  datatype Caller = Anonymous | Known(user: User)

  /** The call context the authentication plugin builds for a backend call (opaque here). */
  datatype CallContext = CallContext(token: string)

  /** The backend request: service, endpoint and the JSON object. */
  datatype BackendRequest = BackendRequest(service: string, endpoint: string, payload: Payload)

  /**
   * The foreign pieces a request goes through: the limiter store, the
   * authentication plugin's inspection and context forwarding, the RPC
   * client and the base64 encoder. A failed forward leaves no context.
   */
  datatype Env = Env(
    get: (Limiter, string) -> GetResult,
    inspect: Request -> Result<User, string>,
    forward: (Caller, Request) -> Result<CallContext, string>,
    call: (Option<CallContext>, BackendRequest) -> CallResult,
    b64: seq<byte> -> string)

  /** Why a request handler panics. */
  datatype PanicReason = NilLimiterDeref | MissingFormValue

  /**
   * How a request ends: the JSON writes in order (the first fixes the status),
   * the last client-address and user rate headers set, and the backend
   * request if the backend was called; or a panic.
   */
  datatype Outcome =
    | Answered(writes: seq<Write>, ipHeaders: Option<LimitContext>, userHeaders: Option<LimitContext>,
               called: Option<BackendRequest>)
    | Panicked(reason: PanicReason)

  const InternalId: string := "INTERNAL_SERVER_ERROR"
  const TooManyId: string := "TO_MANY_REQUESTS"
  const TooManyText: string := "To many requests"
  const UnsupportedId: string := "UNSUPPORTED_MEDIA_TYPE"
  const ContentTypeText: string := "provide a content-type header"
  const UnauthorizedId: string := "UNAUTHORIZED"

  /** The write that ends a failed limiter chain: 500 with the store error, or 429. */
  function ChainFailure(v: Verdict): Write
    requires v.StoreError? || v.Limited?
  {
    if v.StoreError? then Write(500, Errors(InternalId, ErrorValue(v.err)))
    else Write(429, Errors(TooManyId, Text(TooManyText)))
  }

  /** The write a backend result gives: 200 with the raw reply, or the error's status with its id and detail. */
  function CallWrite(res: CallResult): Write
  {
    match res
    case Replied(raw) => Write(200, Raw(raw))
    case Failed(e) => Write(ErrorStatus(e.code), Errors(e.id, Text(e.detail)))
  }

  /** The caller a request is forwarded as: the inspected user, or the anonymous user when inspection failed. */
  function CallerOf(auth: Result<User, string>): Caller
  {
    if auth.Ok? then Known(auth.value) else Anonymous
  }

  /** The request after the client-address chain passed: from the parameters to the response. */
  function AfterClientIP(b: Binding, req: Request, env: Env, ipLast: Option<LimitContext>): Outcome
  {
    var params := DeclaredParams(b.route.params, req.query, req.pathParams);
    match BodyOf(req, env.b64)
    case MissingContentType => Answered([Write(415, Errors(UnsupportedId, Text(ContentTypeText)))], ipLast, None, None)
    case EmptyFormValue => Panicked(MissingFormValue)
    case Materialized(body) =>
      var breq := BackendRequest(b.service, b.route.endpoint, Merge(body, params));
      var auth := env.inspect(req);
      if auth.Err? && b.route.authRequired then
        Answered([Write(401, Errors(UnauthorizedId, NilError))], ipLast, None, None)
      else
        var fwd := env.forward(CallerOf(auth), req);
        var w0 := if fwd.Err? then [Write(500, Errors(InternalId, ErrorValue(fwd.error)))] else [];
        var ctx := if fwd.Ok? then Some(fwd.value) else None;
        var user := if auth.Ok? && |b.limiters.user| > 0
                    then Chain(b.limiters.user, b.path, auth.value.id, env.get, None)
                    else ChainOutcome(Passed, None);
        match user.verdict
        case NilLimiter => Panicked(NilLimiterDeref)
        case StoreError(_) => Answered(w0 + [ChainFailure(user.verdict)], ipLast, user.last, None)
        case Limited => Answered(w0 + [ChainFailure(user.verdict)], ipLast, user.last, None)
        case Passed => Answered(w0 + [CallWrite(env.call(ctx, breq))], ipLast, user.last, Some(breq))
  }

  /** The whole handler. */
  function Dispatch(b: Binding, req: Request, env: Env): Outcome
  {
    var ip := Chain(b.limiters.clientIP, b.path, req.clientIP, env.get, None);
    match ip.verdict
    case NilLimiter => Panicked(NilLimiterDeref)
    case StoreError(_) => Answered([ChainFailure(ip.verdict)], ip.last, None, None)
    case Limited => Answered([ChainFailure(ip.verdict)], ip.last, None, None)
    case Passed => AfterClientIP(b, req, env, ip.last)
  }

  /** The status of the response: the status of the first write. */
  function Status(o: Outcome): int
    requires o.Answered? && |o.writes| > 0
  {
    o.writes[0].status
  }

  /** The handler, step by step: each loop is one of the proved loops of the model. */
  method Proxy(b: Binding, req: Request, env: Env) returns (o: Outcome)
    ensures o == Dispatch(b, req, env)
  {
    var ip := Evaluate(b.limiters.clientIP, b.path, req.clientIP, env.get);
    if ip.verdict.NilLimiter? {
      return Panicked(NilLimiterDeref);
    }
    if !ip.verdict.Passed? {
      return Answered([ChainFailure(ip.verdict)], ip.last, None, None);
    }
    var params := CollectParams(b.route.params, req.query, req.pathParams);
    var body := MaterializeBody(req, env.b64);
    if body.MissingContentType? {
      return Answered([Write(415, Errors(UnsupportedId, Text(ContentTypeText)))], ip.last, None, None);
    }
    if body.EmptyFormValue? {
      return Panicked(MissingFormValue);
    }
    var request := MergeParams(body.payload, params);
    var breq := BackendRequest(b.service, b.route.endpoint, request);
    var auth := env.inspect(req);
    var writes: seq<Write> := [];
    if auth.Err? && b.route.authRequired {
      return Answered([Write(401, Errors(UnauthorizedId, NilError))], ip.last, None, None);
    }
    var ctx: Option<CallContext> := None;
    var fwd := env.forward(if auth.Err? then Anonymous else Known(auth.value), req);
    if fwd.Err? {
      writes := writes + [Write(500, Errors(InternalId, ErrorValue(fwd.error)))];
    } else {
      ctx := Some(fwd.value);
    }
    var userLast: Option<LimitContext> := None;
    if auth.Ok? && |b.limiters.user| > 0 {
      var user := Evaluate(b.limiters.user, b.path, auth.value.id, env.get);
      userLast := user.last;
      if user.verdict.NilLimiter? {
        return Panicked(NilLimiterDeref);
      }
      if !user.verdict.Passed? {
        return Answered(writes + [ChainFailure(user.verdict)], ip.last, userLast, None);
      }
    }
    var res := env.call(ctx, breq);
    return Answered(writes + [CallWrite(res)], ip.last, userLast, Some(breq));
  }

  // ----- properties of the handler -----

  /**
   * The client-address chain runs first: a store error answers 500 and a
   * reached limit answers 429, with that limiter's headers, before anything
   * else and without calling the backend.
   */
  lemma ClientIPShortCircuit(b: Binding, req: Request, env: Env)
    requires NoNil(b.limiters.clientIP)
    ensures var ip := Chain(b.limiters.clientIP, b.path, req.clientIP, env.get, None);
      var o := Dispatch(b, req, env);
      && (ip.verdict.StoreError? ==> o == Answered([Write(500, Errors(InternalId, ErrorValue(ip.verdict.err)))], ip.last, None, None))
      && (ip.verdict.Limited? ==>
            o == Answered([Write(429, Errors(TooManyId, Text(TooManyText)))], ip.last, None, None)
            && exists j :: LimitedAt(b.limiters.clientIP, j, b.path, req.clientIP, env.get)
                           && ip.last == Some(Ask(b.limiters.clientIP[j].value, b.path, req.clientIP, env.get).ctx))
  {
    ChainWithoutNil(b.limiters.clientIP, b.path, req.clientIP, env.get, None);
    ChainHeaders(b.limiters.clientIP, b.path, req.clientIP, env.get, None);
  }

  /** Every client-address limiter is keyed `path-formatted-clientIP`: what a passing chain means. */
  lemma ClientIPPassed(b: Binding, req: Request, env: Env)
    ensures Chain(b.limiters.clientIP, b.path, req.clientIP, env.get, None).verdict == Passed
        <==> forall i :: 0 <= i < |b.limiters.clientIP| ==>
               && b.limiters.clientIP[i].Some?
               && var l := b.limiters.clientIP[i].value;
                  var res := env.get(l, b.path + "-" + l.rate.formatted + "-" + req.clientIP);
                  res.Counted? && !res.ctx.reached
  {
    ChainPassedIff(b.limiters.clientIP, b.path, req.clientIP, env.get, None);
  }

  /** A body-carrying request that is not multipart and has no content type is answered 415 without a backend call. */
  lemma UnsupportedMediaType(b: Binding, req: Request, env: Env)
    requires Chain(b.limiters.clientIP, b.path, req.clientIP, env.get, None).verdict == Passed
    requires CarriesBody(req.verb) && req.form.None? && req.contentType == ""
    ensures var o := Dispatch(b, req, env);
      o.Answered? && o.called.None? && |o.writes| == 1 && Status(o) == 415
      && o.writes[0].body == Errors(UnsupportedId, Text(ContentTypeText))
  {
  }

  /** On a route that requires authentication, a failed inspection answers 401 without a backend call. */
  lemma Unauthorized(b: Binding, req: Request, env: Env)
    requires Chain(b.limiters.clientIP, b.path, req.clientIP, env.get, None).verdict == Passed
    requires BodyOf(req, env.b64).Materialized?
    requires b.route.authRequired && env.inspect(req).Err?
    ensures var o := Dispatch(b, req, env);
      o.Answered? && o.called.None? && o.userHeaders.None? && o.writes == [Write(401, Errors(UnauthorizedId, NilError))]
  {
  }

  /**
   * The backend is called exactly when every gate lets the request through:
   * the client-address chain, the body, authentication when required, and
   * the user chain when the caller was identified.
   */
  lemma BackendCalledIff(b: Binding, req: Request, env: Env)
    ensures var o := Dispatch(b, req, env);
      var auth := env.inspect(req);
      (o.Answered? && o.called.Some?) <==>
        && (forall i :: 0 <= i < |b.limiters.clientIP| ==> PassesAt(b.limiters.clientIP[i], b.path, req.clientIP, env.get))
        && BodyOf(req, env.b64).Materialized?
        && (auth.Ok? || !b.route.authRequired)
        && (auth.Ok? ==> forall i :: 0 <= i < |b.limiters.user| ==> PassesAt(b.limiters.user[i], b.path, auth.value.id, env.get))
  {
    ChainPassedIff(b.limiters.clientIP, b.path, req.clientIP, env.get, None);
    var auth := env.inspect(req);
    if auth.Ok? {
      ChainPassedIff(b.limiters.user, b.path, auth.value.id, env.get, None);
    }
  }

  /**
   * A called backend receives the route's endpoint on its service and the
   * body with the declared parameters written over it; the response is the
   * backend's: 200 with its raw reply, or the error's code (500 when the code
   * is 0) with its id and detail. A failed context forward answers 500 first
   * and does not stop the call.
   */
  lemma CalledBackend(b: Binding, req: Request, env: Env)
    requires Dispatch(b, req, env).Answered? && Dispatch(b, req, env).called.Some?
    ensures var o := Dispatch(b, req, env);
      var breq := o.called.value;
      var auth := env.inspect(req);
      var fwd := env.forward(CallerOf(auth), req);
      && BodyOf(req, env.b64).Materialized?
      && breq == BackendRequest(b.service, b.route.endpoint,
                                Merge(BodyOf(req, env.b64).payload, DeclaredParams(b.route.params, req.query, req.pathParams)))
      && |o.writes| == (if fwd.Err? then 2 else 1)
      && (fwd.Err? ==> Status(o) == 500)
      && var res := env.call(if fwd.Ok? then Some(fwd.value) else None, breq);
         && (res.Replied? ==> o.writes[|o.writes| - 1] == Write(200, Raw(res.raw)))
         && (res.Failed? ==>
               o.writes[|o.writes| - 1].body == Errors(res.err.id, Text(res.err.detail))
               && o.writes[|o.writes| - 1].status == (if res.err.code == 0 then 500 else res.err.code))
  {
  }

  /**
   * Declared parameters win over same-named body fields in the called
   * backend's payload, with the path value winning over the query value.
   */
  lemma ParametersOverrideBody(b: Binding, req: Request, env: Env, p: string)
    requires Dispatch(b, req, env).Answered? && Dispatch(b, req, env).called.Some?
    requires p in b.route.params && p in req.pathParams && |req.pathParams[p]| > 0
    ensures Dispatch(b, req, env).called.value.payload[p] == Str(req.pathParams[p])
  {
    CalledBackend(b, req, env);
  }

  /**
   * When inspection fails on a route that does not require authentication,
   * the request is forwarded as the anonymous user and no user limiter runs.
   */
  lemma AnonymousForward(b: Binding, req: Request, env: Env)
    requires Chain(b.limiters.clientIP, b.path, req.clientIP, env.get, None).verdict == Passed
    requires BodyOf(req, env.b64).Materialized?
    requires !b.route.authRequired && env.inspect(req).Err?
    ensures var o := Dispatch(b, req, env);
      var fwd := env.forward(Anonymous, req);
      && o.Answered? && o.userHeaders.None? && o.called.Some?
      && o.writes[|o.writes| - 1] == CallWrite(env.call(if fwd.Ok? then Some(fwd.value) else None, o.called.value))
  {
  }

  /**
   * User limiters run only for an inspected caller, keyed by that user's id;
   * a store error answers 500 and a reached limit 429 after any forward
   * error, and the backend is not called.
   */
  lemma UserChainGate(b: Binding, req: Request, env: Env)
    requires Chain(b.limiters.clientIP, b.path, req.clientIP, env.get, None).verdict == Passed
    requires BodyOf(req, env.b64).Materialized?
    requires env.inspect(req).Ok? && NoNil(b.limiters.user)
    requires !Chain(b.limiters.user, b.path, env.inspect(req).value.id, env.get, None).verdict.Passed?
    ensures var o := Dispatch(b, req, env);
      var user := Chain(b.limiters.user, b.path, env.inspect(req).value.id, env.get, None);
      && o.Answered? && o.called.None? && o.userHeaders == user.last
      && o.writes[|o.writes| - 1] == ChainFailure(user.verdict)
      && o.writes[|o.writes| - 1].status == (if user.verdict.Limited? then 429 else 500)
  {
    ChainWithoutNil(b.limiters.user, b.path, env.inspect(req).value.id, env.get, None);
  }

  // ----- the nil user limiter -----

  /**
   * With the limiters the registry loop builds as written, a route that does
   * not require authentication but declares user rules panics on every
   * request whose caller inspection succeeds and that reaches the user chain.
   */
  lemma AsWrittenUserLimiterPanics(route: ManifestRoute, cfg: Config, service: string, path: string, req: Request, env: Env)
    requires !route.authRequired && |route.ratelimitUser| > 0
    requires AdmitAsWritten(route, cfg).Some?
    requires Chain(AdmitAsWritten(route, cfg).value.clientIP, path, req.clientIP, env.get, None).verdict == Passed
    requires BodyOf(req, env.b64).Materialized? && env.inspect(req).Ok?
    ensures Dispatch(Binding(service, route, path, AdmitAsWritten(route, cfg).value), req, env) == Panicked(NilLimiterDeref)
  {
    var ls := AdmitAsWritten(route, cfg).value;
    ChainNilFirst(ls.user, path, env.inspect(req).value.id, env.get, None);
  }

  /**
   * The requests that reach the nil user slots: the route does not require
   * authentication but declares user rules, the client-address chain
   * passes, the body is usable and the caller's inspection succeeds.
   */
  predicate NilUserSlotsReached(b: Binding, req: Request, env: Env)
  {
    && !b.route.authRequired && |b.route.ratelimitUser| > 0
    && Chain(b.limiters.clientIP, b.path, req.clientIP, env.get, None).verdict == Passed
    && BodyOf(req, env.b64).Materialized?
    && env.inspect(req).Ok?
  }

  /**
   * With the limiters the registry loop builds as written, a handler panics
   * on a nil limiter exactly on the requests that reach the nil user slots.
   */
  lemma AsWrittenNilLimiterIff(b: Binding, req: Request, env: Env, cfg: Config)
    requires AdmitAsWritten(b.route, cfg) == Some(b.limiters)
    ensures Dispatch(b, req, env) == Panicked(NilLimiterDeref) <==> NilUserSlotsReached(b, req, env)
  {
    ChainWithoutNil(b.limiters.clientIP, b.path, req.clientIP, env.get, None);
    var auth := env.inspect(req);
    if auth.Ok? && |b.limiters.user| > 0 {
      if b.route.authRequired {
        ChainWithoutNil(b.limiters.user, b.path, auth.value.id, env.get, None);
      } else {
        ChainNilFirst(b.limiters.user, b.path, auth.value.id, env.get, None);
      }
    }
  }

  /** A concrete request that panics: a public route with one user rule and an authenticated caller. */
  lemma NilUserLimiterExample()
    ensures var route := ManifestRoute(false, "GET", "/items", "Items.List", [], false, [], ["10-M"]);
      var cfg := Config(true, (s: string) => Some(Rate(s, 10, 60)), "", (p: string) => p);
      var req := Request("GET", map[], map[], "", None, map[], "10.0.0.1", map[]);
      var env := Env((l: Limiter, k: string) => Counted(LimitContext(10, 9, 60, false)),
                     (r: Request) => Ok(User("u1")),
                     (c: Caller, r: Request) => Ok(CallContext("ctx")),
                     (c: Option<CallContext>, br: BackendRequest) => Replied("{}"),
                     (d: seq<byte>) => "");
      && AdmitAsWritten(route, cfg).Some?
      && Dispatch(Binding("items", route, "/items", AdmitAsWritten(route, cfg).value), req, env) == Panicked(NilLimiterDeref)
  {
    var route := ManifestRoute(false, "GET", "/items", "Items.List", [], false, [], ["10-M"]);
    var cfg := Config(true, (s: string) => Some(Rate(s, 10, 60)), "", (p: string) => p);
    var req := Request("GET", map[], map[], "", None, map[], "10.0.0.1", map[]);
    var env := Env((l: Limiter, k: string) => Counted(LimitContext(10, 9, 60, false)),
                   (r: Request) => Ok(User("u1")),
                   (c: Caller, r: Request) => Ok(CallContext("ctx")),
                   (c: Option<CallContext>, br: BackendRequest) => Replied("{}"),
                   (d: seq<byte>) => "");
    AsWrittenUserLimiterPanics(route, cfg, "items", "/items", req, env);
  }

  /** A handler whose limiters come from `Admit` never dereferences a nil limiter. */
  lemma AdmittedNeverNilLimiter(b: Binding, req: Request, env: Env, cfg: Config)
    requires Admit(b.route, cfg) == Some(b.limiters)
    ensures Dispatch(b, req, env) != Panicked(NilLimiterDeref)
  {
    ChainWithoutNil(b.limiters.clientIP, b.path, req.clientIP, env.get, None);
    var auth := env.inspect(req);
    if auth.Ok? {
      ChainWithoutNil(b.limiters.user, b.path, auth.value.id, env.get, None);
    }
  }
}
