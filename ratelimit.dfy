/**
 * The rate-limit chain a gateway route runs before calling its backend: an
 * ordered list of limiters, each counted under a key made of the mounted
 * path, the rule and the caller; the first store error or the first limit
 * reached stops the chain.
 */
module RateLimit {
  import opened Base

  /** A parsed rate rule: its formatted text ("100-M"), the number of requests and the period. */
  datatype Rate = Rate(formatted: string, limit: int, period: int)

  /** A limiter bound to the gateway's store. */
  datatype Limiter = Limiter(rate: Rate)

  /** What the store reports for one counted request. */
  datatype LimitContext = LimitContext(limit: int, remaining: int, reset: int, reached: bool)

  /** The result of `Get` on a limiter: the store failed, or the request was counted. */
  datatype GetResult = StoreFailure(err: string) | Counted(ctx: LimitContext)

  /** How a chain ended. */
  datatype Verdict =
    | Passed                    // every limiter counted the request below its limit
    | StoreError(err: string)   // a store error: 500
    | Limited                   // a limit was reached: 429
    | NilLimiter                // a nil limiter was reached: the call on it panics

  /**
   * The end of a chain and the last context whose headers were set (the
   * `X-...RateLimit-*` headers are overwritten by every counted limiter).
   */
  datatype ChainOutcome = ChainOutcome(verdict: Verdict, last: Option<LimitContext>)

  /** The store key of a limiter for one caller: `path-formatted-who`. */
  function LimiterKey(path: string, formatted: string, who: string): string
  {
    path + "-" + formatted + "-" + who
  }

  /**
   * On one route and rule, two callers share a store counter exactly when
   * they are the same caller: the key ends in the caller.
   */
  lemma LimiterKeyPerCaller(path: string, formatted: string, w1: string, w2: string)
    ensures LimiterKey(path, formatted, w1) == LimiterKey(path, formatted, w2) <==> w1 == w2
  {
    var n := |path| + |formatted| + 2;
    assert LimiterKey(path, formatted, w1)[n..] == w1;
    assert LimiterKey(path, formatted, w2)[n..] == w2;
  }

  /** The result of asking limiter `l` about caller `who` on `path`. */
  function Ask(l: Limiter, path: string, who: string, get: (Limiter, string) -> GetResult): GetResult
  {
    get(l, LimiterKey(path, l.rate.formatted, who))
  }

  /** Whether the slot of a limiter lets the request through. */
  predicate PassesAt(slot: Option<Limiter>, path: string, who: string, get: (Limiter, string) -> GetResult)
  {
    slot.Some? && Ask(slot.value, path, who, get).Counted? && !Ask(slot.value, path, who, get).ctx.reached
  }

  /** The chain, limiter by limiter in slice order; `last` holds the headers set so far. */
  function Chain(ls: seq<Option<Limiter>>, path: string, who: string, get: (Limiter, string) -> GetResult,
                 last: Option<LimitContext>): ChainOutcome
    decreases |ls|
  {
    if ls == [] then ChainOutcome(Passed, last)
    else match ls[0]
      case None => ChainOutcome(NilLimiter, last)
      case Some(l) =>
        match Ask(l, path, who, get)
        case StoreFailure(e) => ChainOutcome(StoreError(e), last)
        case Counted(ctx) =>
          if ctx.reached then ChainOutcome(Limited, Some(ctx))
          else Chain(ls[1..], path, who, get, Some(ctx))
  }

  /** The limiter loop of a proxy. */
  method Evaluate(ls: seq<Option<Limiter>>, path: string, who: string, get: (Limiter, string) -> GetResult)
    returns (out: ChainOutcome)
    ensures out == Chain(ls, path, who, get, None)
  {
    var last: Option<LimitContext> := None;
    for i := 0 to |ls|
      invariant Chain(ls[i..], path, who, get, last) == Chain(ls, path, who, get, None)
    {
      assert ls[i..][1..] == ls[i + 1..];
      match ls[i] {
        case None =>
          return ChainOutcome(NilLimiter, last);
        case Some(l) =>
          var res := get(l, LimiterKey(path, l.rate.formatted, who));
          match res {
            case StoreFailure(e) =>
              return ChainOutcome(StoreError(e), last);
            case Counted(ctx) =>
              last := Some(ctx);
              if ctx.reached {
                return ChainOutcome(Limited, last);
              }
          }
      }
    }
    return ChainOutcome(Passed, last);
  }

  /** A chain passes exactly when every limiter in it is present and counts the request below its limit. */
  lemma {:induction false} ChainPassedIff(ls: seq<Option<Limiter>>, path: string, who: string,
                                           get: (Limiter, string) -> GetResult, last: Option<LimitContext>)
    ensures Chain(ls, path, who, get, last).verdict == Passed
        <==> forall i :: 0 <= i < |ls| ==> PassesAt(ls[i], path, who, get)
    decreases |ls|
  {
    if ls != [] {
      if PassesAt(ls[0], path, who, get) {
        var ctx := Ask(ls[0].value, path, who, get).ctx;
        ChainPassedIff(ls[1..], path, who, get, Some(ctx));
        assert forall i :: 1 <= i < |ls| ==> ls[i] == ls[1..][i - 1];
      }
    }
  }

  /**
   * The chain stops at its first failure: once a prefix ends in anything but
   * `Passed`, the limiters after it are never asked.
   */
  lemma {:induction false} ChainStops(ls: seq<Option<Limiter>>, more: seq<Option<Limiter>>, path: string, who: string,
                                      get: (Limiter, string) -> GetResult, last: Option<LimitContext>)
    requires Chain(ls, path, who, get, last).verdict != Passed
    ensures Chain(ls + more, path, who, get, last) == Chain(ls, path, who, get, last)
    decreases |ls|
  {
    assert (ls + more)[0] == ls[0];
    if PassesAt(ls[0], path, who, get) {
      var ctx := Ask(ls[0].value, path, who, get).ctx;
      assert (ls + more)[1..] == ls[1..] + more;
      ChainStops(ls[1..], more, path, who, get, Some(ctx));
    }
  }

  /** A chain that passed a prefix goes on exactly as the rest would from that prefix's headers. */
  lemma {:induction false} ChainAppend(ls: seq<Option<Limiter>>, more: seq<Option<Limiter>>, path: string, who: string,
                                       get: (Limiter, string) -> GetResult, last: Option<LimitContext>)
    requires Chain(ls, path, who, get, last).verdict == Passed
    ensures Chain(ls + more, path, who, get, last)
         == Chain(more, path, who, get, Chain(ls, path, who, get, last).last)
    decreases |ls|
  {
    if ls == [] {
      assert ls + more == more;
    } else {
      var ctx := Ask(ls[0].value, path, who, get).ctx;
      assert (ls + more)[1..] == ls[1..] + more;
      ChainAppend(ls[1..], more, path, who, get, Some(ctx));
    }
  }

  /**
   * Limiter `j` is the one that stopped the chain with 429: every limiter
   * before it let the request through, and it counted the request and
   * reported its limit reached.
   */
  predicate LimitedAt(ls: seq<Option<Limiter>>, j: int, path: string, who: string, get: (Limiter, string) -> GetResult)
  {
    && 0 <= j < |ls|
    && (forall i :: 0 <= i < j ==> PassesAt(ls[i], path, who, get))
    && ls[j].Some? && Ask(ls[j].value, path, who, get).Counted? && Ask(ls[j].value, path, who, get).ctx.reached
  }

  /**
   * The rate headers after a non-empty chain that passed are those of its
   * last limiter; after a limit is reached they are those the store gave
   * for the first limiter that did not let the request through.
   */
  lemma {:induction false} ChainHeaders(ls: seq<Option<Limiter>>, path: string, who: string,
                                        get: (Limiter, string) -> GetResult, last: Option<LimitContext>)
    ensures var out := Chain(ls, path, who, get, last);
      && (out.verdict == Passed && ls != [] ==>
            PassesAt(ls[|ls| - 1], path, who, get) && out.last == Some(Ask(ls[|ls| - 1].value, path, who, get).ctx))
      && (out.verdict == Limited ==>
            exists j :: LimitedAt(ls, j, path, who, get) && out.last == Some(Ask(ls[j].value, path, who, get).ctx))
    decreases |ls|
  {
    var out := Chain(ls, path, who, get, last);
    if ls != [] && PassesAt(ls[0], path, who, get) {
      var ctx := Ask(ls[0].value, path, who, get).ctx;
      ChainHeaders(ls[1..], path, who, get, Some(ctx));
      if out.verdict == Passed {
        ChainPassedIff(ls, path, who, get, last);
      }
      if out.verdict == Limited {
        var j :| LimitedAt(ls[1..], j, path, who, get) && out.last == Some(Ask(ls[1..][j].value, path, who, get).ctx);
        assert forall i :: 1 <= i < j + 1 ==> ls[i] == ls[1..][i - 1];
        assert LimitedAt(ls, j + 1, path, who, get);
      }
    } else if out.verdict == Limited {
      assert LimitedAt(ls, 0, path, who, get);
    }
  }

  /** A chain of present limiters never reaches a nil one. */
  lemma {:induction false} ChainWithoutNil(ls: seq<Option<Limiter>>, path: string, who: string,
                                           get: (Limiter, string) -> GetResult, last: Option<LimitContext>)
    requires forall i :: 0 <= i < |ls| ==> ls[i].Some?
    ensures Chain(ls, path, who, get, last).verdict != NilLimiter
    decreases |ls|
  {
    if ls != [] && PassesAt(ls[0], path, who, get) {
      ChainWithoutNil(ls[1..], path, who, get, Some(Ask(ls[0].value, path, who, get).ctx));
    }
  }

  /** A chain whose first slot is nil ends there, before any store is asked. */
  lemma ChainNilFirst(ls: seq<Option<Limiter>>, path: string, who: string,
                      get: (Limiter, string) -> GetResult, last: Option<LimitContext>)
    requires ls != [] && ls[0].None?
    ensures Chain(ls, path, who, get, last) == ChainOutcome(NilLimiter, last)
  {
  }
}
