/**
 * The gateway's handler object: the registry it fills from the backends'
 * manifests, the introspection reply listing it, and the dispatch of a
 * request to the handler registered under a route key.
 */
module Gateway {
  import opened Base
  import opened Proto
  import opened Wire
  import opened RateLimit
  import opened Discovery
  import opened Dispatcher

  /** A registry entry as the introspection reply shows it (whether it is global is not shown). */
  function Snapshot(r: ManifestRoute): SnapshotRoute
  {
    SnapshotRoute(r.verb, r.path, r.params, r.endpoint, r.authRequired, r.ratelimitClientIP, r.ratelimitUser)
  }

  /**
   * Filling a limiter slice by index from a list of rules, stopping at the
   * first rule that does not parse: on success slot `i` holds the limiter of
   * rule `i`; on failure the slots before the bad rule are filled and the
   * others are nil.
   */
  method BuildLimiters(rules: seq<string>, parse: string -> Option<Rate>) returns (slice: seq<Option<Limiter>>, haveError: bool)
    ensures |slice| == |rules|
    ensures haveError <==> !AllParse(rules, parse)
    ensures !haveError ==> slice == LimitersOf(rules, parse)
    ensures haveError ==> exists bad :: (
      && 0 <= bad < |rules| && parse(rules[bad]).None?
      && (forall i :: 0 <= i < bad ==> parse(rules[i]).Some? && slice[i] == Some(Limiter(parse(rules[i]).value)))
      && (forall i :: bad <= i < |rules| ==> slice[i].None?))
  {
    var a := new Option<Limiter>[|rules|](_ => None);
    haveError := false;
    var idx := 0;
    while idx < |rules|
      invariant 0 <= idx <= |rules|
      invariant forall i :: 0 <= i < idx ==> parse(rules[i]).Some? && a[i] == Some(Limiter(parse(rules[i]).value))
      invariant forall i :: idx <= i < |rules| ==> a[i].None?
      invariant !haveError
    {
      var rate := parse(rules[idx]);
      if rate.None? {
        haveError := true;
        break;
      }
      a[idx] := Some(Limiter(rate.value));
      idx := idx + 1;
    }
    slice := a[..];
  }

  /**
   * The admission steps of the registry loop: both slices are made with one
   * nil slot per rule; the client-address slice is filled when it has rules,
   * the user slice only when the route also requires authentication.
   */
  method AdmitRoute(route: ManifestRoute, cfg: Config) returns (r: Option<Limiters>)
    ensures r == AdmitAsWritten(route, cfg)
  {
    var clientIP := NilSlice(|route.ratelimitClientIP|);
    if |route.ratelimitClientIP| > 0 {
      if !cfg.hasStore {
        return None;
      }
      var haveError;
      clientIP, haveError := BuildLimiters(route.ratelimitClientIP, cfg.parse);
      if haveError {
        return None;
      }
    }
    var user := NilSlice(|route.ratelimitUser|);
    if route.authRequired && |route.ratelimitUser| > 0 {
      if !cfg.hasStore {
        return None;
      }
      var haveError;
      user, haveError := BuildLimiters(route.ratelimitUser, cfg.parse);
      if haveError {
        return None;
      }
    }
    return Some(Limiters(clientIP, user));
  }

  /** The adverts still to merge at service `i`: its own (if its manifest came back), then the later services'. */
  lemma AdvertsAt(fetches: seq<Fetch>, i: nat)
    requires i < |fetches|
    ensures Adverts(fetches[i..])
         == (match fetches[i] case Fetched(s, reply) => AdvertsOf(s, reply) case FetchFailed(_) => [])
            + Adverts(fetches[i + 1..])
  {
    assert fetches[i..][1..] == fetches[i + 1..];
  }

  /** Splitting the first advert off a list of remaining work. */
  lemma RemainingStep(ads: seq<Advert>, j: nat, rest: seq<Advert>)
    requires j < |ads|
    ensures (ads[j..] + rest)[0] == ads[j] && (ads[j..] + rest)[1..] == ads[j + 1..] + rest
  {
  }

  /** Moving one key from the keys left to the keys done adds one to the keys done. */
  lemma TakeOne(keys: set<string>, left: set<string>, k: string)
    requires left <= keys && k in left
    ensures keys - (left - {k}) == (keys - left) + {k}
    ensures |keys - (left - {k})| == |keys - left| + 1
  {
    assert keys - (left - {k}) == (keys - left) + {k};
  }

  /** No key appears twice. */
  predicate Distinct(ks: seq<string>)
  {
    forall i, j :: 0 <= i < j < |ks| ==> ks[i] != ks[j]
  }

  lemma DistinctAppend(ks: seq<string>, k: string)
    requires Distinct(ks) && k !in ks
    ensures Distinct(ks + [k])
  {
  }

  /**
   * The introspection loop so far: the entries read are the snapshots of
   * the keys no longer left, each read once.
   */
  ghost predicate SnapshotSoFar(rs: map<string, ManifestRoute>, left: set<string>, out: seq<SnapshotRoute>, order: seq<string>)
  {
    && |out| == |order| == |rs.Keys - left|
    && (forall i :: 0 <= i < |order| ==> order[i] in rs && order[i] !in left && out[i] == Snapshot(rs[order[i]]))
    && Distinct(order)
    && (forall k :: k in rs && k !in left ==> k in order)
  }

  lemma SnapshotStep(rs: map<string, ManifestRoute>, left: set<string>, out: seq<SnapshotRoute>, order: seq<string>, k: string)
    requires left <= rs.Keys && k in left && SnapshotSoFar(rs, left, out, order)
    ensures SnapshotSoFar(rs, left - {k}, out + [Snapshot(rs[k])], order + [k])
  {
    DistinctAppend(order, k);
    TakeOne(rs.Keys, left, k);
  }

  /** The gateway's handler object. */
  class Handler {
    var routes: map<string, ManifestRoute>
    var handlers: map<string, Binding>
    var cfg: Config

    /** The registry in one value. */
    function Reg(): Registry
      reads this
    {
      Registry(routes, handlers)
    }

    /** The registry is well formed for the handler's configuration. */
    ghost predicate Valid()
      reads this
    {
      WellFormed(Reg(), cfg)
    }

    /** `NewHandler`, with the store and the framework's base paths fixed: an empty registry. */
    constructor NewHandler(cfg: Config)
      ensures routes == map[] && handlers == map[] && this.cfg == cfg
      ensures Valid()
    {
      routes := map[];
      handlers := map[];
      this.cfg := cfg;
    }

    /**
     * One discovery cycle over the manifest requests made to the services
     * found (an empty list when the lookup failed): the registry becomes the
     * merge of every advert, in service and route order.
     */
    method DiscoverOnce(fetches: seq<Fetch>)
      requires Valid()
      modifies this
      ensures Reg() == MergeAll(old(Reg()), cfg, Adverts(fetches))
      ensures cfg == old(cfg) && Valid()
    {
      ghost var target := MergeAll(Reg(), cfg, Adverts(fetches));
      MergeAllWellFormed(Reg(), cfg, Adverts(fetches));
      for i := 0 to |fetches|
        invariant cfg == old(cfg) && Valid()
        invariant MergeAll(Reg(), cfg, Adverts(fetches[i..])) == target
      {
        AdvertsAt(fetches, i);
        match fetches[i] {
          case FetchFailed(_) =>
            assert Adverts(fetches[i..]) == Adverts(fetches[i + 1..]);
          case Fetched(s, reply) =>
            ghost var ads := AdvertsOf(s, reply);
            ghost var rest := Adverts(fetches[i + 1..]);
            assert ads[0..] + rest == Adverts(fetches[i..]);
            var serviceBase := cfg.groupBase("/" + reply.routerURI);
            for j := 0 to |reply.routes|
              invariant cfg == old(cfg) && Valid()
              invariant MergeAll(Reg(), cfg, ads[j..] + rest) == target
            {
              RemainingStep(ads, j, rest);
              MergeOne(s, reply.routerURI, serviceBase, reply.routes[j]);
            }
            assert ads[|ads|..] + rest == rest;
        }
      }
      assert fetches[|fetches|..] == [];
    }

    /**
     * The body of the route loop: the route is mounted under the global
     * group or its service's group, and registered under its key unless the
     * key is taken or the route is not admitted.
     */
    method MergeOne(service: string, routerURI: string, serviceBase: string, route: ManifestRoute)
      requires serviceBase == cfg.groupBase("/" + routerURI)
      requires Valid()
      modifies this
      ensures Reg() == MergeRoute(old(Reg()), cfg, Advert(service, routerURI, route))
      ensures cfg == old(cfg) && Valid()
    {
      ghost var before := Reg();
      ghost var ad := Advert(service, routerURI, route);
      var base := if route.isGlobal then cfg.globalBase else serviceBase;
      var pathMethod := route.verb + ":" + base + route.path;
      var path := base + route.path;
      assert path == MountedPath(cfg, ad);
      assert pathMethod == RouteKey(cfg, ad);
      if pathMethod !in routes {
        var ls := AdmitRoute(route, cfg);
        if ls.Some? {
          handlers := handlers[pathMethod := Binding(service, route.(path := path), path, ls.value)];
          routes := routes[pathMethod := route];
          routes := routes[pathMethod := routes[pathMethod].(path := path)];
        }
      }
      assert Reg() == MergeRoute(before, cfg, ad);
      MergeRouteWellFormed(before, cfg, ad);
    }

    /**
     * `Routes`: one entry per registry entry, each the snapshot of its stored
     * route; `order` is the key each entry was read from.
     */
    method Routes() returns (out: seq<SnapshotRoute>, ghost order: seq<string>)
      ensures |out| == |order| == |routes|
      ensures forall i :: 0 <= i < |order| ==> order[i] in routes && out[i] == Snapshot(routes[order[i]])
      ensures Distinct(order)
      ensures forall k :: k in routes ==> k in order
      ensures forall k :: k in routes ==> Snapshot(routes[k]) in out
      ensures forall s :: s in out ==> exists k :: k in routes && s == Snapshot(routes[k])
    {
      out, order := [], [];
      var left := routes.Keys;
      while left != {}
        invariant left <= routes.Keys
        invariant SnapshotSoFar(routes, left, out, order)
        decreases left
      {
        var k :| k in left;
        SnapshotStep(routes, left, out, order, k);
        out := out + [Snapshot(routes[k])];
        order := order + [k];
        left := left - {k};
      }
      assert routes.Keys - left == routes.Keys;
      forall k | k in routes ensures Snapshot(routes[k]) in out {
        var i :| 0 <= i < |order| && order[i] == k;
        assert out[i] == Snapshot(routes[k]);
      }
      forall s | s in out ensures exists k :: k in routes && s == Snapshot(routes[k]) {
        var i :| 0 <= i < |out| && out[i] == s;
        assert order[i] in routes && s == Snapshot(routes[order[i]]);
      }
    }

    /**
     * A request to route key `key`: the registered handler's outcome, or
     * `None` when no handler is registered (the framework answers those).
     * The handler panics on a nil limiter exactly when its route does not
     * require authentication but declares user rules, and the request
     * passes the client-address chain, has a usable body and its caller's
     * inspection succeeds.
     */
    method Serve(key: string, req: Request, env: Env) returns (o: Option<Outcome>)
      requires Valid()
      ensures o == (if key in handlers then Some(Dispatch(handlers[key], req, env)) else None)
      ensures o == Some(Panicked(NilLimiterDeref)) <==>
        && key in handlers
        && NilUserSlotsReached(handlers[key], req, env)
    {
      if key !in handlers {
        return None;
      }
      var b := handlers[key];
      AsWrittenNilLimiterIff(b, req, env, cfg);
      var out := Proxy(b, req, env);
      return Some(out);
    }
  }
}
