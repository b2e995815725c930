/**
 * Turning the inbound HTTP headers into the RPC metadata that travels with a
 * backend call: every header `k` becomes the entry "PROXY k" (spaces in `k`
 * written as underscores) whose value is the header's values joined by commas.
 */
module HeaderMetadata {

  /** The prefix every metadata key starts with; its trailing space cannot occur in a header name. */
  const ProxyPrefix: string := "PROXY "

  /** `strings.Replace(k, " ", "_", -1)`. */
  function ReplaceSpaces(k: string): (r: string)
    ensures |r| == |k|
    ensures forall i :: 0 <= i < |k| ==> r[i] == (if k[i] == ' ' then '_' else k[i])
  {
    if k == [] then [] else [if k[0] == ' ' then '_' else k[0]] + ReplaceSpaces(k[1..])
  }

  /**
   * The metadata key of header `k`: it starts with "PROXY ", that space is the
   * only one in it, and a name without spaces is kept as it is.
   */
  function MetadataKey(k: string): (r: string)
    ensures |r| == |k| + |ProxyPrefix| && r[..|ProxyPrefix|] == ProxyPrefix
    ensures forall i :: |ProxyPrefix| <= i < |r| ==> r[i] != ' '
    ensures ' ' !in k ==> r == ProxyPrefix + k
  {
    var tail := ReplaceSpaces(k);
    assert ' ' !in k ==> tail == k;
    ProxyPrefix + tail
  }

  /** `strings.Join(vs, ",")`. */
  function Join(vs: seq<string>): string
  {
    if |vs| == 0 then ""
    else if |vs| == 1 then vs[0]
    else vs[0] + "," + Join(vs[1..])
  }

  /** Splitting on every comma: the inverse of `Join` for values without commas. */
  function Split(s: string): (parts: seq<string>)
    ensures |parts| >= 1
  {
    if s == [] then [""]
    else
      var rest := Split(s[1..]);
      if s[0] == ',' then [""] + rest else [[s[0]] + rest[0]] + rest[1..]
  }

  lemma {:induction false} SplitWithoutComma(a: string)
    requires ',' !in a
    ensures Split(a) == [a]
  {
    if a != [] {
      SplitWithoutComma(a[1..]);
      assert [a[0]] + a[1..] == a;
    }
  }

  lemma {:induction false} SplitAtComma(a: string, t: string)
    requires ',' !in a
    ensures Split(a + "," + t) == [a] + Split(t)
  {
    if a == [] {
      assert a + "," + t == [','] + t;
      assert ([','] + t)[1..] == t;
    } else {
      var s := a + "," + t;
      assert s[1..] == a[1..] + "," + t;
      SplitAtComma(a[1..], t);
      assert [a[0]] + a[1..] == a;
    }
  }

  /**
   * Joining header values and splitting the result on commas gives the values
   * back, in their original order, when no value contains a comma.
   */
  lemma {:induction false} JoinThenSplit(vs: seq<string>)
    requires |vs| >= 1
    requires forall i :: 0 <= i < |vs| ==> ',' !in vs[i]
    ensures Split(Join(vs)) == vs
  {
    if |vs| == 1 {
      SplitWithoutComma(vs[0]);
    } else {
      JoinThenSplit(vs[1..]);
      SplitAtComma(vs[0], Join(vs[1..]));
      assert [vs[0]] + vs[1..] == vs;
    }
  }

  /**
   * `md` is metadata built from `headers`: every header has its key in `md`,
   * and every entry of `md` is the joined values of some header with that key
   * (when two names give the same key, either may be the one kept).
   */
  ghost predicate IsHeaderMetadata(headers: map<string, seq<string>>, md: map<string, string>)
  {
    && (forall k :: k in headers ==> MetadataKey(k) in md)
    && (forall mk :: mk in md ==> exists k :: k in headers && MetadataKey(k) == mk && md[mk] == Join(headers[k]))
  }

  /** `CtxFromRequest`: fills the metadata map one header at a time, in map order. */
  method CtxFromRequest(headers: map<string, seq<string>>) returns (md: map<string, string>)
    ensures IsHeaderMetadata(headers, md)
  {
    md := map[];
    var left := headers.Keys;
    while left != {}
      invariant left <= headers.Keys
      invariant forall k :: k in headers && k !in left ==> MetadataKey(k) in md
      invariant forall mk :: mk in md ==>
        exists k :: k in headers && k !in left && MetadataKey(k) == mk && md[mk] == Join(headers[k])
      decreases left
    {
      var k :| k in left;
      md := md[MetadataKey(k) := Join(headers[k])];
      left := left - {k};
    }
  }

  /** The keys produced from a set of header names. */
  ghost function KeysOf(names: set<string>): set<string>
  {
    set k | k in names :: MetadataKey(k)
  }

  lemma {:induction false} KeysOfSize(names: set<string>)
    ensures |KeysOf(names)| <= |names|
    decreases names
  {
    if names != {} {
      var k :| k in names;
      var rest := names - {k};
      KeysOfSize(rest);
      assert KeysOf(names) == KeysOf(rest) + {MetadataKey(k)};
    }
  }

  /** Every metadata key derives from some header, so there are at most as many entries as headers. */
  lemma MetadataSize(headers: map<string, seq<string>>, md: map<string, string>)
    requires IsHeaderMetadata(headers, md)
    ensures |md| <= |headers|
  {
    assert md.Keys <= KeysOf(headers.Keys) by {
      forall mk | mk in md ensures mk in KeysOf(headers.Keys) {
        var k :| k in headers && MetadataKey(k) == mk && md[mk] == Join(headers[k]);
      }
    }
    KeysOfSize(headers.Keys);
    assert |md.Keys| <= |KeysOf(headers.Keys)| by {
      SubsetSize(md.Keys, KeysOf(headers.Keys));
    }
  }

  lemma SubsetSize(a: set<string>, b: set<string>)
    requires a <= b
    ensures |a| <= |b|
  {
    assert b == a + (b - a);
  }

  /**
   * When no header name holds a space (as HTTP requires), header `k` is found
   * under "PROXY " + `k` with exactly its own values joined in order.
   */
  lemma MetadataWithoutSpaces(headers: map<string, seq<string>>, md: map<string, string>, k: string)
    requires IsHeaderMetadata(headers, md)
    requires forall n :: n in headers ==> ' ' !in n
    requires k in headers
    ensures ProxyPrefix + k in md && md[ProxyPrefix + k] == Join(headers[k])
  {
    var mk := MetadataKey(k);
    var k' :| k' in headers && MetadataKey(k') == mk && md[mk] == Join(headers[k']);
    assert k' == (ProxyPrefix + k')[|ProxyPrefix|..];
    assert k == (ProxyPrefix + k)[|ProxyPrefix|..];
  }
}
