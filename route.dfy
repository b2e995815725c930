/**
 * A backend-side route declaration built from functional options: a default
 * route for an endpoint, then each option applied in argument order, each
 * writing one field.
 */
module RouteOptions {

  /**
   * A route a backend wants exposed. `E` is the type of the endpoint value
   * (a handler function in the original; its name is taken only when the
   * route is published).
   */
  datatype Route<E> = Route(
    isGlobal: bool,
    verb: string,
    path: string,
    endpoint: E,
    params: seq<string>,
    authRequired: bool,
    ratelimitClientIP: seq<string>,
    ratelimitUser: seq<string>)

  /** The options that can be passed to `NewRoute`. */
  datatype RouteOption<E> =
    | IsGlobal(global: bool)
    | Method(verb: string)
    | Path(template: string)
    | Endpoint(handler: E)
    | Params(names: seq<string>)

  /** The fields of a route, to speak about which field an option writes. */
  datatype Field =
    | GlobalField | MethodField | PathField | EndpointField | ParamsField
    | AuthField | ClientIPLimitField | UserLimitField

  const MethodGet: string := "GET"

  /** The single field an option writes. */
  function FieldOf<E>(o: RouteOption<E>): Field
  {
    match o
    case IsGlobal(_) => GlobalField
    case Method(_) => MethodField
    case Path(_) => PathField
    case Endpoint(_) => EndpointField
    case Params(_) => ParamsField
  }

  /** Whether two routes hold the same value in field `f`. */
  predicate Agree<E(==)>(r1: Route<E>, r2: Route<E>, f: Field)
  {
    match f
    case GlobalField => r1.isGlobal == r2.isGlobal
    case MethodField => r1.verb == r2.verb
    case PathField => r1.path == r2.path
    case EndpointField => r1.endpoint == r2.endpoint
    case ParamsField => r1.params == r2.params
    case AuthField => r1.authRequired == r2.authRequired
    case ClientIPLimitField => r1.ratelimitClientIP == r2.ratelimitClientIP
    case UserLimitField => r1.ratelimitUser == r2.ratelimitUser
  }

  /** Whether route `r` holds, in the field option `o` writes, the value `o` carries. */
  predicate Holds<E(==)>(r: Route<E>, o: RouteOption<E>)
  {
    match o
    case IsGlobal(g) => r.isGlobal == g
    case Method(m) => r.verb == m
    case Path(p) => r.path == p
    case Endpoint(e) => r.endpoint == e
    case Params(ns) => r.params == ns
  }

  /** The route `NewRoute` starts from before any option is applied. */
  function DefaultRoute<E>(endpoint: E): Route<E>
  {
    Route(false, MethodGet, "/", endpoint, [], false, [], [])
  }

  /**
   * Applying one option: the option's field receives the option's value
   * (`Params` replaces the whole list) and every other field is left as it was.
   */
  function Apply<E(==)>(r: Route<E>, o: RouteOption<E>): (r': Route<E>)
    ensures Holds(r', o)
    ensures forall f: Field :: f != FieldOf(o) ==> Agree(r', r, f)
  {
    match o
    case IsGlobal(g) => r.(isGlobal := g)
    case Method(m) => r.(verb := m)
    case Path(p) => r.(path := p)
    case Endpoint(e) => r.(endpoint := e)
    case Params(ns) => r.(params := ns)
  }

  /** Applying options left to right. */
  function ApplyAll<E(==)>(r: Route<E>, opts: seq<RouteOption<E>>): Route<E>
    decreases |opts|
  {
    if opts == [] then r else ApplyAll(Apply(r, opts[0]), opts[1..])
  }

  /** `NewRoute(endpoint, opts...)`: the default route with the options folded over it. */
  function NewRoute<E(==)>(endpoint: E, opts: seq<RouteOption<E>>): Route<E>
  {
    ApplyAll(DefaultRoute(endpoint), opts)
  }

  /** With no options, a route is a non-global `GET /` for the given endpoint with no parameters. */
  lemma NewRouteWithoutOptions<E>(endpoint: E)
    ensures var r := NewRoute(endpoint, []);
      && !r.isGlobal && r.verb == "GET" && r.path == "/"
      && r.endpoint == endpoint && r.params == []
  {
  }

  /** Applying `a + b` is applying `a`, then `b`. */
  lemma {:induction false} ApplyAllAppend<E>(r: Route<E>, a: seq<RouteOption<E>>, b: seq<RouteOption<E>>)
    ensures ApplyAll(r, a + b) == ApplyAll(ApplyAll(r, a), b)
    decreases |a|
  {
    if a == [] {
      assert a + b == b;
    } else {
      assert (a + b)[0] == a[0];
      assert (a + b)[1..] == a[1..] + b;
      ApplyAllAppend(Apply(r, a[0]), a[1..], b);
    }
  }

  /** A field that no option writes keeps the value it had before the options were applied. */
  lemma {:induction false} ApplyAllUntouched<E>(r: Route<E>, opts: seq<RouteOption<E>>, f: Field)
    requires forall i :: 0 <= i < |opts| ==> FieldOf(opts[i]) != f
    ensures Agree(ApplyAll(r, opts), r, f)
    decreases |opts|
  {
    if opts != [] {
      ApplyAllUntouched(Apply(r, opts[0]), opts[1..], f);
    }
  }

  /**
   * The last option that writes a field decides it: when no option after `o`
   * writes `o`'s field, the built route holds `o`'s value there, whatever came before.
   */
  lemma LastOptionWins<E>(r: Route<E>, before: seq<RouteOption<E>>, o: RouteOption<E>, after: seq<RouteOption<E>>)
    requires forall i :: 0 <= i < |after| ==> FieldOf(after[i]) != FieldOf(o)
    ensures Holds(ApplyAll(r, before + [o] + after), o)
  {
    ApplyAllAppend(r, before + [o], after);
    ApplyAllAppend(r, before, [o]);
    var mid := ApplyAll(r, before);
    assert ApplyAll(mid, [o]) == Apply(mid, o) by {
      assert [o][1..] == [];
    }
    ApplyAllUntouched(Apply(mid, o), after, FieldOf(o));
  }

  /** An `Endpoint` option overrides the positional endpoint argument of `NewRoute`. */
  lemma EndpointOptionOverrides<E>(endpoint: E, before: seq<RouteOption<E>>, handler: E, after: seq<RouteOption<E>>)
    requires forall i :: 0 <= i < |after| ==> !after[i].Endpoint?
    ensures NewRoute(endpoint, before + [Endpoint(handler)] + after).endpoint == handler
  {
    LastOptionWins(DefaultRoute(endpoint), before, Endpoint(handler), after);
  }

  /**
   * Without a `Params` option the built route has no parameters; with one,
   * the last `Params` list replaces everything earlier rather than adding to it.
   */
  lemma ParamsOptionReplaces<E>(endpoint: E, before: seq<RouteOption<E>>, names: seq<string>, after: seq<RouteOption<E>>)
    requires forall i :: 0 <= i < |after| ==> !after[i].Params?
    ensures NewRoute(endpoint, before + [Params(names)] + after).params == names
    ensures NewRoute(endpoint, after).params == []
  {
    LastOptionWins(DefaultRoute(endpoint), before, Params(names), after);
    ApplyAllUntouched(DefaultRoute(endpoint), after, ParamsField);
  }
}
