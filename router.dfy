/**
 * The backend-side route manifest: a component that a backend service
 * embeds to collect the routes it wants the gateway to expose and to answer
 * the gateway's manifest request with them and with its mount prefix.
 */
module BackendRouter {
  import opened Base
  import opened Proto
  import opened RouteOptions

  /** ASCII lower-casing of one character. */
  function LowerChar(c: char): char
  {
    if 'A' <= c <= 'Z' then (c as int + 32) as char else c
  }

  /** ASCII upper-casing of one character. */
  function UpperChar(c: char): char
  {
    if 'a' <= c <= 'z' then (c as int - 32) as char else c
  }

  /** `strings.ToLower`, restricted to ASCII letters. */
  function Lower(s: string): (r: string)
    ensures |r| == |s|
    ensures forall i :: 0 <= i < |s| ==> r[i] == LowerChar(s[i])
  {
    if s == [] then [] else [LowerChar(s[0])] + Lower(s[1..])
  }

  /** `strings.ToUpper`, restricted to ASCII letters. */
  function Upper(s: string): (r: string)
    ensures |r| == |s|
    ensures forall i :: 0 <= i < |s| ==> r[i] == UpperChar(s[i])
  {
    if s == [] then [] else [UpperChar(s[0])] + Upper(s[1..])
  }

  /** Lower-casing forgets whatever upper-casing did first. */
  lemma LowerAfterUpper(s: string)
    ensures Lower(Upper(s)) == Lower(s)
  {
    var l, u := Lower(Upper(s)), Lower(s);
    assert |l| == |u|;
    forall i | 0 <= i < |s| ensures l[i] == u[i] {
      assert Upper(s)[i] == UpperChar(s[i]);
    }
  }

  /** A command-line string flag: its name, the environment variable that feeds it and its default. */
  datatype StringFlag = StringFlag(name: string, envVar: string, default: string)

  /** The flag that gives a backend its mount prefix, for the component registry's flag prefix. */
  function BasepathFlag(prefix: string): StringFlag
  {
    StringFlag(Lower(prefix) + "_router_basepath", Upper(prefix) + "_ROUTER_BASEPATH", "api/v1/" + Lower(prefix))
  }

  /**
   * The default mount prefix is "api/v1/" followed by the flag prefix in lower
   * case, the flag name is that lower-case prefix plus "_router_basepath", and
   * the environment variable spells the prefix in upper case.
   */
  lemma BasepathFlagShape(prefix: string)
    ensures var f := BasepathFlag(prefix);
      && f.default == "api/v1/" + f.name[..|prefix|]
      && f.name[|prefix|..] == "_router_basepath"
      && f.envVar[|prefix|..] == "_ROUTER_BASEPATH"
      && (forall i :: 7 <= i < |f.default| ==> !('A' <= f.default[i] <= 'Z'))
      && (forall i :: 0 <= i < |prefix| ==> !('a' <= f.envVar[i] <= 'z'))
  {
    var f := BasepathFlag(prefix);
    assert f.name[..|prefix|] == Lower(prefix);
    assert f.default[7..] == Lower(prefix);
  }

  /**
   * Two flag prefixes that differ only in the case of ASCII letters give the
   * same flag (with the ASCII case mapping of `Lower` and `Upper`; Unicode
   * case mapping is not modelled).
   */
  lemma BasepathFlagIgnoresCase(p: string, q: string)
    requires Upper(p) == Upper(q)
    ensures BasepathFlag(p) == BasepathFlag(q)
  {
    LowerAfterUpper(p);
    LowerAfterUpper(q);
  }

  /** The manifest entry published for a route; `nameOf` gives the endpoint's function name. */
  function Published<E>(r: Route<E>, nameOf: E -> string): ManifestRoute
  {
    ManifestRoute(r.isGlobal, r.verb, r.path, nameOf(r.endpoint), r.params,
                  r.authRequired, r.ratelimitClientIP, r.ratelimitUser)
  }

  /** The manifest entries published for a list of routes: nil routes are skipped. */
  function PublishedAll<E>(rs: seq<Option<Route<E>>>, nameOf: E -> string): seq<ManifestRoute>
    decreases |rs|
  {
    if rs == [] then []
    else
      var last := rs[|rs| - 1];
      PublishedAll(rs[..|rs| - 1], nameOf) + (if last.Some? then [Published(last.value, nameOf)] else [])
  }

  /** Publishing two lists one after the other is publishing their concatenation: order is kept. */
  lemma {:induction false} PublishedAllAppend<E>(a: seq<Option<Route<E>>>, b: seq<Option<Route<E>>>, nameOf: E -> string)
    ensures PublishedAll(a + b, nameOf) == PublishedAll(a, nameOf) + PublishedAll(b, nameOf)
    decreases |b|
  {
    if b == [] {
      assert a + b == a;
    } else {
      var b' := b[..|b| - 1];
      assert (a + b)[..|a + b| - 1] == a + b';
      assert (a + b)[|a + b| - 1] == b[|b| - 1];
      PublishedAllAppend(a, b', nameOf);
    }
  }

  /** A nil route contributes nothing, wherever it stands. */
  lemma NilRoutesSkipped<E>(a: seq<Option<Route<E>>>, b: seq<Option<Route<E>>>, nameOf: E -> string)
    ensures PublishedAll(a + [None] + b, nameOf) == PublishedAll(a + b, nameOf)
  {
    PublishedAllAppend(a + [None], b, nameOf);
    PublishedAllAppend(a, [None], nameOf);
    PublishedAllAppend(a, b, nameOf);
    var nil: seq<Option<Route<E>>> := [None];
    assert PublishedAll(nil, nameOf) == [] by {
      assert nil[..0] == [];
    }
  }

  /** When no route is nil, entry `i` of the manifest is route `i`, with all its fields copied. */
  lemma {:induction false} PublishedAllPresent<E>(rs: seq<Option<Route<E>>>, nameOf: E -> string)
    requires forall i :: 0 <= i < |rs| ==> rs[i].Some?
    ensures |PublishedAll(rs, nameOf)| == |rs|
    ensures forall i :: 0 <= i < |rs| ==> PublishedAll(rs, nameOf)[i] == Published(rs[i].value, nameOf)
    decreases |rs|
  {
    if rs != [] {
      PublishedAllPresent(rs[..|rs| - 1], nameOf);
    }
  }

  /** The router component of a backend service. */
  class Handler {
    var initialized: bool
    var routerURI: string
    var routes: seq<ManifestRoute>

    /** `New`: not yet initialised and no routes. */
    constructor New()
      ensures !initialized && routes == []
    {
      initialized := false;
      routerURI := "";
      routes := [];
    }

    /**
     * `Init`: a second call does nothing; the first reads the mount prefix
     * from the flag named after the registry's flag prefix (`lookup` stands
     * for the command line) and marks the component initialised.
     */
    method Init(prefix: string, lookup: string -> string)
      modifies this
      ensures old(initialized) ==> initialized && routerURI == old(routerURI) && routes == old(routes)
      ensures !old(initialized) ==> initialized && routerURI == lookup(BasepathFlag(prefix).name)
      ensures routes == old(routes)
    {
      if initialized {
        return;
      }
      routerURI := lookup(Lower(prefix) + "_router_basepath");
      initialized := true;
    }

    /** `Add`: appends the manifest entry of every non-nil route, in argument order. */
    method Add<E>(rs: seq<Option<Route<E>>>, nameOf: E -> string)
      modifies this
      ensures routes == old(routes) + PublishedAll(rs, nameOf)
      ensures initialized == old(initialized) && routerURI == old(routerURI)
    {
      for i := 0 to |rs|
        invariant routes == old(routes) + PublishedAll(rs[..i], nameOf)
        invariant initialized == old(initialized) && routerURI == old(routerURI)
      {
        assert rs[..i + 1][..i] == rs[..i];
        match rs[i] {
          case None =>
          case Some(r) => routes := routes + [Published(r, nameOf)];
        }
      }
      assert rs[..|rs|] == rs;
    }

    /** `Routes`: the manifest reply is the mount prefix and exactly the accumulated routes. */
    method Routes() returns (reply: RoutesReply)
      ensures reply.routerURI == routerURI && reply.routes == routes
    {
      reply := RoutesReply(routerURI, routes);
    }
  }
}
