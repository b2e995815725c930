/**
 * The older gateway handler: a registry of seen route keys filled from the
 * backends' manifests with no admission step, and a handler per route that
 * forwards the request, with the inbound headers as call metadata, and
 * answers with a `{status, message}` body on error.
 */
module LegacyGateway {
  import opened Base
  import opened Proto
  import opened Wire
  import opened Transcode
  import opened HeaderMetadata
  import opened Discovery
  import opened Dispatcher

  /** The framework's base paths: the global group's and that of the group made for a relative prefix. */
  datatype Groups = Groups(globalBase: string, groupBase: string -> string)

  /** The handler registered for a route: the owning service and the advertised route. */
  datatype LegacyBinding = LegacyBinding(service: string, route: ManifestRoute)

  /** The set of seen keys (every value `true`) and the registered handlers. */
  datatype LegacyRegistry = LegacyRegistry(routes: map<string, bool>, handlers: map<string, LegacyBinding>)

  /** The base path of the group an advert is registered on. */
  function GroupBase(g: Groups, ad: Advert): string
  {
    if ad.route.isGlobal then g.globalBase else g.groupBase("/" + ad.routerURI)
  }

  /** The key of an advert: `Method: base/path`. */
  function LegacyKey(g: Groups, ad: Advert): string
  {
    ad.route.verb + ": " + GroupBase(g, ad) + "/" + ad.route.path
  }

  /** One route of the loop: registered only when its key has not been seen. */
  function LegacyMerge(reg: LegacyRegistry, g: Groups, ad: Advert): LegacyRegistry
  {
    var k := LegacyKey(g, ad);
    if k in reg.routes then reg
    else LegacyRegistry(reg.routes[k := true], reg.handlers[k := LegacyBinding(ad.service, ad.route)])
  }

  /** A whole cycle over the adverts, in order. */
  function LegacyMergeAll(reg: LegacyRegistry, g: Groups, ads: seq<Advert>): LegacyRegistry
    decreases |ads|
  {
    if ads == [] then reg else LegacyMergeAll(LegacyMerge(reg, g, ads[0]), g, ads[1..])
  }

  /** The keys of a list of adverts. */
  function KeysOfAdverts(g: Groups, ads: seq<Advert>): set<string>
  {
    set i | 0 <= i < |ads| :: LegacyKey(g, ads[i])
  }

  lemma KeysOfAdvertsCons(g: Groups, ads: seq<Advert>)
    requires ads != []
    ensures KeysOfAdverts(g, ads) == {LegacyKey(g, ads[0])} + KeysOfAdverts(g, ads[1..])
  {
    forall k | k in KeysOfAdverts(g, ads) ensures k in {LegacyKey(g, ads[0])} + KeysOfAdverts(g, ads[1..]) {
      var i :| 0 <= i < |ads| && LegacyKey(g, ads[i]) == k;
      if i > 0 {
        assert ads[i] == ads[1..][i - 1];
      }
    }
    forall k | k in KeysOfAdverts(g, ads[1..]) ensures k in KeysOfAdverts(g, ads) {
      var i :| 0 <= i < |ads[1..]| && LegacyKey(g, ads[1..][i]) == k;
      assert ads[1..][i] == ads[i + 1];
    }
  }

  /** Every seen key maps to `true` and has a handler. */
  ghost predicate LegacyValid(reg: LegacyRegistry)
  {
    && reg.routes.Keys == reg.handlers.Keys
    && forall k :: k in reg.routes ==> reg.routes[k]
  }

  /**
   * A cycle only adds keys: afterwards the keys are exactly the keys before
   * plus the keys of the adverts; every value stays `true`, and nothing seen
   * before is changed, so re-advertising a key does nothing.
   */
  lemma {:induction false} LegacyMergeAllKeys(reg: LegacyRegistry, g: Groups, ads: seq<Advert>)
    requires LegacyValid(reg)
    ensures var r := LegacyMergeAll(reg, g, ads);
      && LegacyValid(r)
      && r.routes.Keys == reg.routes.Keys + KeysOfAdverts(g, ads)
      && (forall k :: k in reg.handlers ==> r.handlers[k] == reg.handlers[k])
    decreases |ads|
  {
    if ads != [] {
      var next := LegacyMerge(reg, g, ads[0]);
      LegacyMergeAllKeys(next, g, ads[1..]);
      KeysOfAdvertsCons(g, ads);
    }
  }

  /** The handler kept for a key is that of the first advert with that key, when the key was new. */
  lemma {:induction false} LegacyFirstWriterWins(reg: LegacyRegistry, g: Groups, ads: seq<Advert>, i: nat)
    requires LegacyValid(reg)
    requires i < |ads| && LegacyKey(g, ads[i]) !in reg.routes
    requires forall j :: 0 <= j < i ==> LegacyKey(g, ads[j]) != LegacyKey(g, ads[i])
    ensures var r := LegacyMergeAll(reg, g, ads);
      LegacyKey(g, ads[i]) in r.handlers && r.handlers[LegacyKey(g, ads[i])] == LegacyBinding(ads[i].service, ads[i].route)
    decreases i
  {
    var next := LegacyMerge(reg, g, ads[0]);
    if i == 0 {
      LegacyMergeAllKeys(next, g, ads[1..]);
    } else {
      assert forall j :: 0 <= j < i - 1 ==> ads[1..][j] == ads[j + 1];
      LegacyFirstWriterWins(next, g, ads[1..], i - 1);
    }
  }

  /** A cycle whose every key has been seen changes nothing. */
  lemma {:induction false} LegacySeenNoop(reg: LegacyRegistry, g: Groups, ads: seq<Advert>)
    requires KeysOfAdverts(g, ads) <= reg.routes.Keys
    ensures LegacyMergeAll(reg, g, ads) == reg
    decreases |ads|
  {
    if ads != [] {
      KeysOfAdvertsCons(g, ads);
      LegacySeenNoop(reg, g, ads[1..]);
    }
  }

  /** A second cycle over the same adverts leaves the registry as the first one left it. */
  lemma LegacyMergeAllIdempotent(reg: LegacyRegistry, g: Groups, ads: seq<Advert>)
    requires LegacyValid(reg)
    ensures LegacyMergeAll(LegacyMergeAll(reg, g, ads), g, ads) == LegacyMergeAll(reg, g, ads)
  {
    LegacyMergeAllKeys(reg, g, ads);
    LegacySeenNoop(LegacyMergeAll(reg, g, ads), g, ads);
  }

  // ----- the request handler -----

  /** The foreign pieces of the older handler: the RPC client (given the call metadata) and the base64 encoder. */
  datatype LegacyEnv = LegacyEnv(call: (map<string, string>, BackendRequest) -> CallResult, b64: seq<byte> -> string)

  /** A backend call: the request and the metadata it carried. */
  datatype LegacyCall = LegacyCall(request: BackendRequest, md: map<string, string>)

  /** How a request ends: the one JSON write and the backend call if there was one; or a panic. */
  datatype LegacyOutcome = Responded(write: Write, called: Option<LegacyCall>) | FormPanic

  /** The whole older handler, for the metadata `md` built from the request's headers. */
  function LegacyDispatch(b: LegacyBinding, req: Request, md: map<string, string>, env: LegacyEnv): LegacyOutcome
  {
    var params := DeclaredParams(b.route.params, req.query, req.pathParams);
    match BodyOf(req, env.b64)
    case MissingContentType => Responded(Write(415, StatusMessage(415, ContentTypeText)), None)
    case EmptyFormValue => FormPanic
    case Materialized(body) =>
      var breq := BackendRequest(b.service, b.route.endpoint, Merge(body, params));
      match env.call(md, breq)
      case Replied(raw) => Responded(Write(200, Raw(raw)), Some(LegacyCall(breq, md)))
      case Failed(e) =>
        var code := ErrorStatus(e.code);
        Responded(Write(code, StatusMessage(code, e.detail)), Some(LegacyCall(breq, md)))
  }

  /** The metadata an outcome's backend call carried; empty when the backend was not called. */
  function CalledWith(o: LegacyOutcome): map<string, string>
  {
    if o.Responded? && o.called.Some? then o.called.value.md else map[]
  }

  /**
   * The older handler, step by step: the outcome is `LegacyDispatch`'s,
   * for metadata built from the request headers (the
   * headers are not read when the request is refused with 415).
   */
  method LegacyProxy(b: LegacyBinding, req: Request, env: LegacyEnv) returns (o: LegacyOutcome)
    ensures o == LegacyDispatch(b, req, CalledWith(o), env)
    ensures o.Responded? && o.called.Some? ==> IsHeaderMetadata(req.headers, o.called.value.md)
  {
    var params := CollectParams(b.route.params, req.query, req.pathParams);
    var body := MaterializeBody(req, env.b64);
    if body.MissingContentType? {
      return Responded(Write(415, StatusMessage(415, ContentTypeText)), None);
    }
    if body.EmptyFormValue? {
      return FormPanic;
    }
    var request := MergeParams(body.payload, params);
    var breq := BackendRequest(b.service, b.route.endpoint, request);
    var ctx := CtxFromRequest(req.headers);
    var res := env.call(ctx, breq);
    if res.Failed? {
      var code := 500;
      if res.err.code != 0 {
        code := res.err.code;
      }
      return Responded(Write(code, StatusMessage(code, res.err.detail)), Some(LegacyCall(breq, ctx)));
    }
    return Responded(Write(200, Raw(res.raw)), Some(LegacyCall(breq, ctx)));
  }

  /**
   * The older handler's responses: 415 with a `{415, message}` body and no
   * call for a body-carrying request that is not multipart and has no
   * content type; otherwise the backend is called with the body and the
   * parameters written over it, and an error answers its code (500 when the
   * code is 0) with that same code in the body, a reply answers 200.
   */
  lemma LegacyResponses(b: LegacyBinding, req: Request, md: map<string, string>, env: LegacyEnv)
    ensures var o := LegacyDispatch(b, req, md, env);
      && (BodyOf(req, env.b64) == MissingContentType ==>
            o == Responded(Write(415, StatusMessage(415, ContentTypeText)), None))
      && (o.Responded? && o.write.body.StatusMessage? ==> o.write.body.status == o.write.status)
      && (o.Responded? && o.called.Some? ==>
            && BodyOf(req, env.b64).Materialized?
            && o.called.value.md == md
            && o.called.value.request.payload
               == Merge(BodyOf(req, env.b64).payload, DeclaredParams(b.route.params, req.query, req.pathParams))
            && var res := env.call(md, o.called.value.request);
               && (res.Replied? ==> o.write == Write(200, Raw(res.raw)))
               && (res.Failed? ==> o.write.status == (if res.err.code == 0 then 500 else res.err.code)
                                   && o.write.body == StatusMessage(o.write.status, res.err.detail)))
      && (o.Responded? && o.called.None? <==> BodyOf(req, env.b64) == MissingContentType)
  {
  }

  /** The older gateway's handler object. */
  class LegacyHandler {
    var routes: map<string, bool>
    var handlers: map<string, LegacyBinding>
    var groups: Groups

    function Reg(): LegacyRegistry
      reads this
    {
      LegacyRegistry(routes, handlers)
    }

    /** Every seen key maps to `true` and has a handler. */
    ghost predicate Valid()
      reads this
    {
      LegacyValid(Reg())
    }

    constructor (groups: Groups)
      ensures routes == map[] && handlers == map[] && this.groups == groups
      ensures Valid()
    {
      routes := map[];
      handlers := map[];
      this.groups := groups;
    }

    /**
     * One refresh of `Start`: every advert of every manifest that came back
     * is registered under its key unless the key was seen.
     */
    method RefreshOnce(fetches: seq<Fetch>)
      requires Valid()
      modifies this
      ensures Reg() == LegacyMergeAll(old(Reg()), groups, Adverts(fetches))
      ensures groups == old(groups) && Valid()
    {
      ghost var target := LegacyMergeAll(Reg(), groups, Adverts(fetches));
      LegacyMergeAllKeys(Reg(), groups, Adverts(fetches));
      for i := 0 to |fetches|
        invariant groups == old(groups)
        invariant LegacyMergeAll(Reg(), groups, Adverts(fetches[i..])) == target
      {
        assert fetches[i..][1..] == fetches[i + 1..];
        match fetches[i] {
          case FetchFailed(_) =>
            assert Adverts(fetches[i..]) == Adverts(fetches[i + 1..]);
          case Fetched(s, reply) =>
            ghost var ads := AdvertsOf(s, reply);
            ghost var rest := Adverts(fetches[i + 1..]);
            assert ads[0..] + rest == Adverts(fetches[i..]);
            var serviceBase := groups.groupBase("/" + reply.routerURI);
            for j := 0 to |reply.routes|
              invariant groups == old(groups)
              invariant LegacyMergeAll(Reg(), groups, ads[j..] + rest) == target
            {
              assert (ads[j..] + rest)[1..] == ads[j + 1..] + rest;
              ghost var before := Reg();
              var route := reply.routes[j];
              var base := if route.isGlobal then groups.globalBase else serviceBase;
              var path := route.verb + ": " + base + "/" + route.path;
              assert path == LegacyKey(groups, ads[j]);
              if path !in routes {
                handlers := handlers[path := LegacyBinding(s, route)];
                routes := routes[path := true];
              }
              assert Reg() == LegacyMerge(before, groups, ads[j]);
            }
            assert ads[|ads|..] + rest == rest;
        }
      }
      assert fetches[|fetches|..] == [];
    }

    /** A request to route key `key`: the registered handler's outcome, or `None` when there is none. */
    method Serve(key: string, req: Request, env: LegacyEnv) returns (o: Option<LegacyOutcome>)
      ensures key !in handlers ==> o.None?
      ensures key in handlers ==> o.Some? && o.value == LegacyDispatch(handlers[key], req, CalledWith(o.value), env)
      ensures o.Some? && o.value.Responded? && o.value.called.Some? ==> IsHeaderMetadata(req.headers, o.value.called.value.md)
    {
      if key !in handlers {
        return None;
      }
      var out := LegacyProxy(handlers[key], req, env);
      return Some(out);
    }
  }
}
