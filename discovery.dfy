/**
 * One discovery cycle of the gateway's route registry, as functions on values:
 * which advertised routes are admitted (their rate rules must be usable),
 * the key and mounted path each gets, and the first-writer-wins merge of a
 * whole list of adverts into the registry.
 */
module Discovery {
  import opened Base
  import opened Proto
  import opened RateLimit

  /**
   * What the cycle depends on besides the adverts: whether a rate store is
   * configured, the rule parser, the global group's base path and the base
   * path of the group made for a relative prefix (both computed by the web
   * framework).
   */
  datatype Config = Config(
    hasStore: bool,
    parse: string -> Option<Rate>,
    globalBase: string,
    groupBase: string -> string)

  /** The two limiter slices a route's handler holds; `None` is a nil limiter. */
  datatype Limiters = Limiters(clientIP: seq<Option<Limiter>>, user: seq<Option<Limiter>>)

  /** The handler registered for a route: the owning service, the stored route, the mounted path, the limiters. */
  datatype Binding = Binding(service: string, route: ManifestRoute, path: string, limiters: Limiters)

  /** The registry: stored routes and registered handlers, both under the route key. */
  datatype Registry = Registry(routes: map<string, ManifestRoute>, handlers: map<string, Binding>)

  /** One advertised route together with the service and the mount prefix that advertised it. */
  datatype Advert = Advert(service: string, routerURI: string, route: ManifestRoute)

  /** The manifest request to one service: its reply, or a failure (the service is skipped). */
  datatype Fetch = Fetched(service: string, reply: RoutesReply) | FetchFailed(service: string)

  /** Every rule of the list parses. */
  predicate AllParse(rules: seq<string>, parse: string -> Option<Rate>)
  {
    forall i :: 0 <= i < |rules| ==> parse(rules[i]).Some?
  }

  /** The limiters for a list of rules that all parse, one per rule in rule order. */
  function LimitersOf(rules: seq<string>, parse: string -> Option<Rate>): seq<Option<Limiter>>
    requires AllParse(rules, parse)
  {
    seq(|rules|, i requires 0 <= i < |rules| && AllParse(rules, parse) => Some(Limiter(parse(rules[i]).value)))
  }

  /** A slice of nil limiters, as `make` leaves it. */
  function NilSlice(n: nat): (ls: seq<Option<Limiter>>)
    ensures |ls| == n && forall i :: 0 <= i < n ==> ls[i].None?
  {
    seq(n, _ => None)
  }

  /** No limiter in the slice is nil. */
  predicate NoNil(ls: seq<Option<Limiter>>)
  {
    forall i :: 0 <= i < |ls| ==> ls[i].Some?
  }

  /** Whether the client-address rules can be used: none declared, or a store and all of them parse. */
  predicate ClientIPUsable(route: ManifestRoute, cfg: Config)
  {
    |route.ratelimitClientIP| == 0 || (cfg.hasStore && AllParse(route.ratelimitClientIP, cfg.parse))
  }

  /** The user rules are consulted only on an authenticated route that declares some. */
  predicate UserGated(route: ManifestRoute)
  {
    route.authRequired && |route.ratelimitUser| > 0
  }

  /** Whether the user rules can be used: not consulted, or a store and all of them parse. */
  predicate UserUsable(route: ManifestRoute, cfg: Config)
  {
    !UserGated(route) || (cfg.hasStore && AllParse(route.ratelimitUser, cfg.parse))
  }

  /**
   * Admission as the registry loop does it: `None` when the route is skipped,
   * else the two limiter slices. The user slice always has one slot per user
   * rule, and it is filled only when the route requires authentication.
   */
  function AdmitAsWritten(route: ManifestRoute, cfg: Config): (r: Option<Limiters>)
    ensures r.Some? <==> Admit(route, cfg).Some?
    ensures r.Some? ==> r.value.clientIP == Admit(route, cfg).value.clientIP
    ensures r.Some? && route.authRequired ==> r.value.user == Admit(route, cfg).value.user
    ensures r.Some? && !route.authRequired ==>
      |r.value.user| == |route.ratelimitUser| && forall i :: 0 <= i < |r.value.user| ==> r.value.user[i].None?
  {
    if !ClientIPUsable(route, cfg) || !UserUsable(route, cfg) then None
    else
      var ip := if |route.ratelimitClientIP| > 0 then LimitersOf(route.ratelimitClientIP, cfg.parse) else [];
      var user := if UserGated(route) then LimitersOf(route.ratelimitUser, cfg.parse) else NilSlice(|route.ratelimitUser|);
      Some(Limiters(ip, user))
  }

  /**
   * Admission with the user slice left empty unless the user rules are in
   * force, so that a handler never holds a nil limiter.
   *
   * A route is skipped exactly when it declares client-address rules and
   * there is no store or one of them does not parse, or it requires
   * authentication, declares user rules, and there is no store or one of
   * them does not parse. An admitted route's slices hold one limiter per
   * rule in force, in rule order.
   */
  function Admit(route: ManifestRoute, cfg: Config): (r: Option<Limiters>)
    ensures r.None? <==>
      || (|route.ratelimitClientIP| > 0 && (!cfg.hasStore || exists i :: 0 <= i < |route.ratelimitClientIP| && cfg.parse(route.ratelimitClientIP[i]).None?))
      || (route.authRequired && |route.ratelimitUser| > 0 &&
          (!cfg.hasStore || exists i :: 0 <= i < |route.ratelimitUser| && cfg.parse(route.ratelimitUser[i]).None?))
    ensures r.Some? ==> NoNil(r.value.clientIP) && NoNil(r.value.user)
    ensures r.Some? ==> |r.value.clientIP| == |route.ratelimitClientIP|
    ensures r.Some? ==> |r.value.user| == (if route.authRequired then |route.ratelimitUser| else 0)
  {
    if !ClientIPUsable(route, cfg) || !UserUsable(route, cfg) then None
    else
      var ip := if |route.ratelimitClientIP| > 0 then LimitersOf(route.ratelimitClientIP, cfg.parse) else [];
      var user := if UserGated(route) then LimitersOf(route.ratelimitUser, cfg.parse) else [];
      Some(Limiters(ip, user))
  }

  /** The base path a route is mounted under: the global group's, or its service's group's. */
  function MountBase(cfg: Config, ad: Advert): string
  {
    if ad.route.isGlobal then cfg.globalBase else cfg.groupBase("/" + ad.routerURI)
  }

  /** The mounted path: the base path followed by the advertised path. */
  function MountedPath(cfg: Config, ad: Advert): string
  {
    MountBase(cfg, ad) + ad.route.path
  }

  /** The registry key: `Method:` followed by the mounted path. */
  function RouteKey(cfg: Config, ad: Advert): string
  {
    ad.route.verb + ":" + MountedPath(cfg, ad)
  }

  /** The route stored for an advert: the advertised route with its path replaced by the mounted path. */
  function Stored(cfg: Config, ad: Advert): ManifestRoute
  {
    ad.route.(path := MountedPath(cfg, ad))
  }

  /** The handler registered for an admitted advert. */
  function BindingOf(cfg: Config, ad: Advert, ls: Limiters): Binding
  {
    Binding(ad.service, Stored(cfg, ad), MountedPath(cfg, ad), ls)
  }

  /** One route of the loop: inserted only when its key is absent and it is admitted. */
  function MergeRoute(reg: Registry, cfg: Config, ad: Advert): Registry
  {
    var k := RouteKey(cfg, ad);
    if k in reg.routes then reg
    else match AdmitAsWritten(ad.route, cfg)
      case None => reg
      case Some(ls) => Registry(reg.routes[k := Stored(cfg, ad)], reg.handlers[k := BindingOf(cfg, ad, ls)])
  }

  /** A whole cycle over the adverts, in order. */
  function MergeAll(reg: Registry, cfg: Config, ads: seq<Advert>): Registry
    decreases |ads|
  {
    if ads == [] then reg else MergeAll(MergeRoute(reg, cfg, ads[0]), cfg, ads[1..])
  }

  /** The adverts of one reply, in reply order. */
  function AdvertsOf(service: string, reply: RoutesReply): seq<Advert>
  {
    seq(|reply.routes|, i requires 0 <= i < |reply.routes| => Advert(service, reply.routerURI, reply.routes[i]))
  }

  /** The adverts of a list of manifest requests, service by service; failed requests contribute none. */
  function Adverts(fetches: seq<Fetch>): seq<Advert>
    decreases |fetches|
  {
    if fetches == [] then []
    else
      (match fetches[0]
       case Fetched(s, reply) => AdvertsOf(s, reply)
       case FetchFailed(_) => []) + Adverts(fetches[1..])
  }

  /**
   * The registry is well formed: both maps have the same keys; each key is
   * its route's method and path; each handler holds its stored route and
   * mounted path; each handler's limiters are what admission gives for its
   * route, so no client-address limiter is nil, and the user slots are all
   * filled on a route requiring authentication and all nil on any other.
   */
  ghost predicate WellFormed(reg: Registry, cfg: Config)
  {
    && reg.routes.Keys == reg.handlers.Keys
    && forall k :: k in reg.routes ==>
      && k == reg.routes[k].verb + ":" + reg.routes[k].path
      && reg.handlers[k].route == reg.routes[k]
      && reg.handlers[k].path == reg.routes[k].path
      && AdmitAsWritten(reg.routes[k], cfg) == Some(reg.handlers[k].limiters)
      && NoNil(reg.handlers[k].limiters.clientIP)
      && |reg.handlers[k].limiters.user| == |reg.routes[k].ratelimitUser|
      && (reg.routes[k].authRequired ==> NoNil(reg.handlers[k].limiters.user))
      && (!reg.routes[k].authRequired ==> forall i :: 0 <= i < |reg.handlers[k].limiters.user| ==> reg.handlers[k].limiters.user[i].None?)
  }

  /** An advert needs nothing more from the registry: its key is taken, or it is not admitted. */
  predicate Settled(reg: Registry, cfg: Config, ad: Advert)
  {
    RouteKey(cfg, ad) in reg.routes || AdmitAsWritten(ad.route, cfg).None?
  }

  // ----- the merge step -----

  /** One step never removes or changes an entry, and adds at most the advert's key. */
  lemma MergeRouteKeeps(reg: Registry, cfg: Config, ad: Advert)
    ensures var r := MergeRoute(reg, cfg, ad);
      && r.routes.Keys == reg.routes.Keys + (if Settled(reg, cfg, ad) then {} else {RouteKey(cfg, ad)})
      && (forall k :: k in reg.routes ==> r.routes[k] == reg.routes[k])
      && (forall k :: k in reg.handlers && k in reg.routes ==> k in r.handlers && r.handlers[k] == reg.handlers[k])
      && Settled(r, cfg, ad)
  {
  }

  /** A route's admission does not depend on its path. */
  lemma AdmitIgnoresPath(route: ManifestRoute, path: string, cfg: Config)
    ensures AdmitAsWritten(route.(path := path), cfg) == AdmitAsWritten(route, cfg)
  {
  }

  lemma MergeRouteWellFormed(reg: Registry, cfg: Config, ad: Advert)
    requires WellFormed(reg, cfg)
    ensures WellFormed(MergeRoute(reg, cfg, ad), cfg)
  {
    AdmitIgnoresPath(ad.route, MountedPath(cfg, ad), cfg);
  }

  // ----- the cycle -----

  /** The cycle never removes or overwrites an entry: re-advertising an existing key changes nothing. */
  lemma {:induction false} MergeAllKeeps(reg: Registry, cfg: Config, ads: seq<Advert>)
    requires reg.routes.Keys == reg.handlers.Keys
    ensures var r := MergeAll(reg, cfg, ads);
      && r.routes.Keys == r.handlers.Keys
      && reg.routes.Keys <= r.routes.Keys
      && (forall k :: k in reg.routes ==> r.routes[k] == reg.routes[k] && r.handlers[k] == reg.handlers[k])
    decreases |ads|
  {
    if ads != [] {
      MergeRouteKeeps(reg, cfg, ads[0]);
      MergeAllKeeps(MergeRoute(reg, cfg, ads[0]), cfg, ads[1..]);
    }
  }

  /** The cycle keeps the registry well formed. */
  lemma {:induction false} MergeAllWellFormed(reg: Registry, cfg: Config, ads: seq<Advert>)
    requires WellFormed(reg, cfg)
    ensures WellFormed(MergeAll(reg, cfg, ads), cfg)
    decreases |ads|
  {
    if ads != [] {
      MergeRouteWellFormed(reg, cfg, ads[0]);
      MergeAllWellFormed(MergeRoute(reg, cfg, ads[0]), cfg, ads[1..]);
    }
  }

  /** An entry the cycle adds comes from an admitted advert with that key, stored with its mounted path. */
  lemma {:induction false} MergeAllNewEntries(reg: Registry, cfg: Config, ads: seq<Advert>, k: string)
    requires k in MergeAll(reg, cfg, ads).routes && k !in reg.routes
    ensures exists i :: 0 <= i < |ads| && RouteKey(cfg, ads[i]) == k && AdmitAsWritten(ads[i].route, cfg).Some?
                        && MergeAll(reg, cfg, ads).routes[k] == Stored(cfg, ads[i])
    decreases |ads|
  {
    var next := MergeRoute(reg, cfg, ads[0]);
    if k in next.routes {
      MergeAllKeepsRoutes(next, cfg, ads[1..]);
      assert RouteKey(cfg, ads[0]) == k;
    } else {
      MergeAllNewEntries(next, cfg, ads[1..], k);
      var i :| 0 <= i < |ads[1..]| && RouteKey(cfg, ads[1..][i]) == k && AdmitAsWritten(ads[1..][i].route, cfg).Some?
               && MergeAll(next, cfg, ads[1..]).routes[k] == Stored(cfg, ads[1..][i]);
      assert ads[i + 1] == ads[1..][i];
    }
  }

  /** The cycle keeps every stored route (the route map alone). */
  lemma {:induction false} MergeAllKeepsRoutes(reg: Registry, cfg: Config, ads: seq<Advert>)
    ensures forall k :: k in reg.routes ==>
      k in MergeAll(reg, cfg, ads).routes && MergeAll(reg, cfg, ads).routes[k] == reg.routes[k]
    decreases |ads|
  {
    if ads != [] {
      MergeRouteKeeps(reg, cfg, ads[0]);
      MergeAllKeepsRoutes(MergeRoute(reg, cfg, ads[0]), cfg, ads[1..]);
    }
  }

  /**
   * First writer wins: when advert `i` is admitted, its key is new, and no
   * earlier advert with that key was admitted, the cycle stores advert `i`
   * under that key, with its handler, whatever later adverts say.
   */
  lemma {:induction false} FirstWriterWins(reg: Registry, cfg: Config, ads: seq<Advert>, i: nat)
    requires reg.routes.Keys == reg.handlers.Keys
    requires i < |ads| && AdmitAsWritten(ads[i].route, cfg).Some? && RouteKey(cfg, ads[i]) !in reg.routes
    requires forall j :: 0 <= j < i ==> RouteKey(cfg, ads[j]) != RouteKey(cfg, ads[i]) || AdmitAsWritten(ads[j].route, cfg).None?
    ensures var r := MergeAll(reg, cfg, ads);
      && RouteKey(cfg, ads[i]) in r.routes && RouteKey(cfg, ads[i]) in r.handlers
      && r.routes[RouteKey(cfg, ads[i])] == Stored(cfg, ads[i])
      && r.handlers[RouteKey(cfg, ads[i])] == BindingOf(cfg, ads[i], AdmitAsWritten(ads[i].route, cfg).value)
    decreases i
  {
    var next := MergeRoute(reg, cfg, ads[0]);
    MergeRouteKeeps(reg, cfg, ads[0]);
    if i == 0 {
      MergeAllKeeps(next, cfg, ads[1..]);
    } else {
      assert RouteKey(cfg, ads[i]) !in next.routes;
      assert forall j :: 0 <= j < i - 1 ==> ads[1..][j] == ads[j + 1];
      FirstWriterWins(next, cfg, ads[1..], i - 1);
    }
  }

  /** Once every advert is settled, running the cycle again changes nothing. */
  lemma {:induction false} SettledNoop(reg: Registry, cfg: Config, ads: seq<Advert>)
    requires forall i :: 0 <= i < |ads| ==> Settled(reg, cfg, ads[i])
    ensures MergeAll(reg, cfg, ads) == reg
    decreases |ads|
  {
    if ads != [] {
      assert forall i :: 0 <= i < |ads| - 1 ==> ads[1..][i] == ads[i + 1];
      SettledNoop(reg, cfg, ads[1..]);
    }
  }

  /** After the cycle every advert is settled. */
  lemma {:induction false} MergeAllSettles(reg: Registry, cfg: Config, ads: seq<Advert>)
    ensures forall i :: 0 <= i < |ads| ==> Settled(MergeAll(reg, cfg, ads), cfg, ads[i])
    decreases |ads|
  {
    if ads != [] {
      var next := MergeRoute(reg, cfg, ads[0]);
      MergeRouteKeeps(reg, cfg, ads[0]);
      MergeAllSettles(next, cfg, ads[1..]);
      MergeAllKeepsRoutes(next, cfg, ads[1..]);
      forall i | 0 <= i < |ads|
        ensures Settled(MergeAll(reg, cfg, ads), cfg, ads[i])
      {
        if i > 0 {
          assert ads[i] == ads[1..][i - 1];
        }
      }
    }
  }

  /** A second cycle over the same adverts leaves the registry as the first one left it. */
  lemma MergeAllIdempotent(reg: Registry, cfg: Config, ads: seq<Advert>)
    ensures MergeAll(MergeAll(reg, cfg, ads), cfg, ads) == MergeAll(reg, cfg, ads)
  {
    MergeAllSettles(reg, cfg, ads);
    SettledNoop(MergeAll(reg, cfg, ads), cfg, ads);
  }

  /** A cycle adds at most one entry per advert. */
  lemma {:induction false} MergeAllGrowth(reg: Registry, cfg: Config, ads: seq<Advert>)
    ensures |MergeAll(reg, cfg, ads).routes| <= |reg.routes| + |ads|
    decreases |ads|
  {
    if ads != [] {
      var next := MergeRoute(reg, cfg, ads[0]);
      MergeRouteKeeps(reg, cfg, ads[0]);
      assert |next.routes.Keys| <= |reg.routes.Keys| + 1;
      MergeAllGrowth(next, cfg, ads[1..]);
    }
  }

  /** A cycle over two lists of adverts is a cycle over the first, then one over the second. */
  lemma {:induction false} MergeAllAppend(reg: Registry, cfg: Config, a: seq<Advert>, b: seq<Advert>)
    ensures MergeAll(reg, cfg, a + b) == MergeAll(MergeAll(reg, cfg, a), cfg, b)
    decreases |a|
  {
    if a == [] {
      assert a + b == b;
    } else {
      assert (a + b)[1..] == a[1..] + b;
      MergeAllAppend(MergeRoute(reg, cfg, a[0]), cfg, a[1..], b);
    }
  }
}
