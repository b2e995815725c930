/**
 * The protocol messages exchanged between the gateway and its backends:
 * the route manifest a backend answers with, and the gateway's own
 * introspection reply.
 */
module Proto {

  /**
   * One advertised route (`RoutesReply_Route` of the router client service):
   * the HTTP verb and path template, the backend endpoint to invoke, the
   * parameter names to forward, whether a caller identity is required and
   * the two ordered lists of formatted rate rules ("100-M" and the like).
   */
  datatype ManifestRoute = ManifestRoute(
    isGlobal: bool,
    verb: string,
    path: string,
    endpoint: string,
    params: seq<string>,
    authRequired: bool,
    ratelimitClientIP: seq<string>,
    ratelimitUser: seq<string>)

  /** A backend's manifest: its mount prefix and its routes. */
  datatype RoutesReply = RoutesReply(routerURI: string, routes: seq<ManifestRoute>)

  /** One entry of the gateway's introspection reply (`RoutesReply_Route` of the router server service). */
  datatype SnapshotRoute = SnapshotRoute(
    verb: string,
    path: string,
    params: seq<string>,
    endpoint: string,
    authRequired: bool,
    ratelimitClientIP: seq<string>,
    ratelimitUser: seq<string>)
}
