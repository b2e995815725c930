/**
 * Turning an inbound HTTP request into the JSON object sent to a backend:
 * the declared parameters taken from the query and the path, the body
 * materialised from a multipart form or bound from the raw body, and the
 * parameters written over the body. Both proxies share this logic.
 */
module Transcode {
  import opened Base
  import opened Wire

  /** `len(m[p]) > 0` for a gin lookup that yields "" when `p` is absent. */
  predicate NonEmptyIn(m: map<string, string>, p: string)
  {
    p in m && |m[p]| > 0
  }

  /**
   * The forwarded parameters: exactly the declared names with a non-empty
   * path or query value, the path value winning over the query value.
   */
  function DeclaredParams(declared: seq<string>, query: map<string, string>, path: map<string, string>): map<string, string>
  {
    map p | p in declared && (NonEmptyIn(path, p) || NonEmptyIn(query, p)) ::
      if NonEmptyIn(path, p) then path[p] else query[p]
  }

  /** The parameters after the query loop has visited the names `ds`. */
  function QueryStage(ds: seq<string>, query: map<string, string>): map<string, string>
  {
    map p | p in ds && NonEmptyIn(query, p) :: query[p]
  }

  /** The parameters after the path loop has visited the names `ds`. */
  function PathStage(declared: seq<string>, ds: seq<string>, query: map<string, string>, path: map<string, string>): map<string, string>
  {
    map p | p in declared && (NonEmptyIn(query, p) || (p in ds && NonEmptyIn(path, p))) ::
      if p in ds && NonEmptyIn(path, p) then path[p] else query[p]
  }

  lemma QueryStageStep(ds: seq<string>, p: string, query: map<string, string>)
    ensures QueryStage(ds + [p], query)
         == if NonEmptyIn(query, p) then QueryStage(ds, query)[p := query[p]] else QueryStage(ds, query)
  {
  }

  lemma PathStageStep(declared: seq<string>, ds: seq<string>, p: string, query: map<string, string>, path: map<string, string>)
    requires p in declared
    ensures PathStage(declared, ds + [p], query, path)
         == if NonEmptyIn(path, p) then PathStage(declared, ds, query, path)[p := path[p]] else PathStage(declared, ds, query, path)
  {
  }

  lemma PathStageBounds(declared: seq<string>, query: map<string, string>, path: map<string, string>)
    ensures PathStage(declared, [], query, path) == QueryStage(declared, query)
    ensures PathStage(declared, declared, query, path) == DeclaredParams(declared, query, path)
  {
  }

  /** The parameter loops: first every declared query value, then every declared path value over them. */
  method CollectParams(declared: seq<string>, query: map<string, string>, path: map<string, string>)
    returns (params: map<string, string>)
    ensures params == DeclaredParams(declared, query, path)
  {
    params := map[];
    for i := 0 to |declared|
      invariant params == QueryStage(declared[..i], query)
    {
      assert declared[..i + 1] == declared[..i] + [declared[i]];
      QueryStageStep(declared[..i], declared[i], query);
      var p := declared[i];
      if p in query && |query[p]| > 0 {
        params := params[p := query[p]];
      }
    }
    assert declared[..|declared|] == declared;
    PathStageBounds(declared, query, path);
    for i := 0 to |declared|
      invariant params == PathStage(declared, declared[..i], query, path)
    {
      assert declared[..i + 1] == declared[..i] + [declared[i]];
      PathStageStep(declared, declared[..i], declared[i], query, path);
      var p := declared[i];
      if p in path && |path[p]| > 0 {
        params := params[p := path[p]];
      }
    }
    assert declared[..|declared|] == declared;
  }

  /** The base64 encodings of the readable files of one field, in file order. */
  function Encoded(files: seq<FilePart>, b64: seq<byte> -> string): (enc: seq<string>)
    ensures |enc| <= |files|
    decreases |files|
  {
    if files == [] then []
    else
      var last := files[|files| - 1];
      Encoded(files[..|files| - 1], b64) + (if last.content.Some? then [b64(last.content.value)] else [])
  }

  /** When every file of a field is readable, the encodings are one per file, in file order. */
  lemma {:induction false} EncodedAllReadable(files: seq<FilePart>, b64: seq<byte> -> string)
    requires forall i :: 0 <= i < |files| ==> files[i].content.Some?
    ensures |Encoded(files, b64)| == |files|
    ensures forall i :: 0 <= i < |files| ==> Encoded(files, b64)[i] == b64(files[i].content.value)
    decreases |files|
  {
    if files != [] {
      EncodedAllReadable(files[..|files| - 1], b64);
    }
  }

  lemma EncodedStep(files: seq<FilePart>, j: nat, b64: seq<byte> -> string)
    requires j < |files|
    ensures Encoded(files[..j + 1], b64)
         == Encoded(files[..j], b64) + (if files[j].content.Some? then [b64(files[j].content.value)] else [])
  {
    assert files[..j + 1][..j] == files[..j];
  }

  /** The value a file field gets: a list when the field had more than one file, else a scalar. */
  function FileValue(files: seq<FilePart>, enc: seq<string>): Value
    requires |enc| > 0
  {
    if |files| > 1 then Strs(enc) else Str(enc[0])
  }

  /** The body entries of the file fields: a field none of whose files could be read is absent. */
  function FileFields(files: map<string, seq<FilePart>>, b64: seq<byte> -> string): Payload
  {
    map k | k in files && |Encoded(files[k], b64)| > 0 :: FileValue(files[k], Encoded(files[k], b64))
  }

  /** The entry file field `k` has after its first files were encoded into `enc`. */
  function PartialField(k: string, files: seq<FilePart>, enc: seq<string>): Payload
  {
    if |enc| == 0 then map[] else map[k := FileValue(files, enc)]
  }

  function Restrict<V>(m: map<string, V>, keys: set<string>): map<string, V>
  {
    map k | k in m && k in keys :: m[k]
  }

  lemma FileFieldsStep(files: map<string, seq<FilePart>>, done: set<string>, k: string, b64: seq<byte> -> string)
    requires k in files && k !in done
    ensures FileFields(Restrict(files, done + {k}), b64)
         == FileFields(Restrict(files, done), b64) + PartialField(k, files[k], Encoded(files[k], b64))
  {
  }

  lemma UpdateField(request: Payload, k: string, field: Payload, v: Value)
    requires k !in request && field.Keys <= {k}
    ensures (request + field)[k := v] == request + map[k := v]
  {
    var lhs, rhs := (request + field)[k := v], request + map[k := v];
    assert lhs.Keys == rhs.Keys;
    forall x | x in lhs ensures lhs[x] == rhs[x] {
    }
  }

  /** The loop over the files of field `k`: a list under `k` when it has several files, else a scalar. */
  method EncodeField(request: Payload, k: string, fs: seq<FilePart>, b64: seq<byte> -> string) returns (r: Payload)
    requires k !in request
    ensures r == request + PartialField(k, fs, Encoded(fs, b64))
  {
    r := request;
    for j := 0 to |fs|
      invariant r == request + PartialField(k, fs, Encoded(fs[..j], b64))
    {
      EncodedStep(fs, j, b64);
      ghost var enc0 := Encoded(fs[..j], b64);
      ghost var r0 := r;
      var f := fs[j];
      if f.content.Some? {
        var enc := b64(f.content.value);
        var v: Value;
        if |fs| > 1 {
          if k !in r {
            v := Strs([enc]);
          } else {
            v := Strs(r[k].xs + [enc]);
          }
        } else {
          v := Str(enc);
        }
        r := r[k := v];
        assert v == FileValue(fs, enc0 + [enc]) by {
          assert |enc0| <= j;
          if |enc0| == 0 {
            assert k !in r0;
            assert enc0 + [enc] == [enc];
          } else {
            assert k in r0 && r0[k] == FileValue(fs, enc0);
          }
        }
        UpdateField(request, k, PartialField(k, fs, enc0), v);
        assert PartialField(k, fs, enc0 + [enc]) == map[k := v];
      } else {
        assert Encoded(fs[..j + 1], b64) == enc0;
      }
    }
    assert fs[..|fs|] == fs;
  }

  /** The file loop: every file field in map order, each through `EncodeField`. */
  method EncodeFiles(files: map<string, seq<FilePart>>, b64: seq<byte> -> string) returns (request: Payload)
    ensures request == FileFields(files, b64)
  {
    request := map[];
    var left := files.Keys;
    while left != {}
      invariant left <= files.Keys
      invariant request == FileFields(Restrict(files, files.Keys - left), b64)
      decreases left
    {
      var k :| k in left;
      request := EncodeField(request, k, files[k], b64);
      FileFieldsStep(files, files.Keys - left, k, b64);
      assert files.Keys - (left - {k}) == (files.Keys - left) + {k};
      left := left - {k};
    }
    assert Restrict(files, files.Keys) == files;
  }

  /** Every value field has at least one value (a parser-made form always does). */
  predicate FormValuesPresent(values: map<string, seq<string>>)
  {
    forall k :: k in values ==> |values[k]| > 0
  }

  /** The value a value field gets: the list when it has more than one entry, else its first value. */
  function ValueOf(v: seq<string>): Value
    requires |v| > 0
  {
    if |v| > 1 then Strs(v) else Str(v[0])
  }

  function ValueFields(values: map<string, seq<string>>): Payload
    requires FormValuesPresent(values)
  {
    map k | k in values :: ValueOf(values[k])
  }

  /** Only these verbs have their body read. */
  predicate CarriesBody(verb: string)
  {
    verb == "POST" || verb == "PATCH" || verb == "PUT"
  }

  /** The outcome of reading a request body. */
  datatype BodyResult =
    | Materialized(payload: Payload)
    | MissingContentType   // not multipart and no content type: 415
    | EmptyFormValue       // a value field with no value: indexing it panics

  /**
   * The request object before the parameters are merged in: empty for verbs
   * without a body; for a multipart body the file fields, then the value
   * fields written over them; otherwise the bound body, unless there is no
   * content type at all.
   */
  function BodyOf(req: Request, b64: seq<byte> -> string): BodyResult
  {
    if !CarriesBody(req.verb) then Materialized(map[])
    else match req.form
      case Some(mf) =>
        if FormValuesPresent(mf.values) then Materialized(FileFields(mf.files, b64) + ValueFields(mf.values))
        else EmptyFormValue
      case None =>
        if req.contentType == "" then MissingContentType else Materialized(req.bound)
  }

  lemma ValueFieldsStep(request: Payload, values: map<string, seq<string>>, done: set<string>, k: string)
    requires k in values && k !in done && |values[k]| > 0
    requires FormValuesPresent(Restrict(values, done))
    ensures FormValuesPresent(Restrict(values, done + {k}))
    ensures request + ValueFields(Restrict(values, done + {k}))
         == (request + ValueFields(Restrict(values, done)))[k := ValueOf(values[k])]
  {
    var lhs := request + ValueFields(Restrict(values, done + {k}));
    var rhs := (request + ValueFields(Restrict(values, done)))[k := ValueOf(values[k])];
    assert lhs.Keys == rhs.Keys;
    forall x | x in lhs ensures lhs[x] == rhs[x] {
    }
  }

  /**
   * The value loop: every value field in map order written over `request`; a
   * field with no value stops it (the original indexes its first value and panics).
   */
  method EncodeValues(request: Payload, values: map<string, seq<string>>) returns (r: Option<Payload>)
    ensures FormValuesPresent(values) ==> r == Some(request + ValueFields(values))
    ensures !FormValuesPresent(values) ==> r == None
  {
    var acc := request;
    var left := values.Keys;
    assert Restrict(values, {}) == map[];
    while left != {}
      invariant left <= values.Keys
      invariant FormValuesPresent(Restrict(values, values.Keys - left))
      invariant acc == request + ValueFields(Restrict(values, values.Keys - left))
      decreases left
    {
      var k :| k in left;
      var v := values[k];
      if |v| == 0 {
        return None;
      }
      ValueFieldsStep(request, values, values.Keys - left, k);
      if |v| > 1 {
        acc := acc[k := Strs(v)];
      } else {
        acc := acc[k := Str(v[0])];
      }
      assert values.Keys - (left - {k}) == (values.Keys - left) + {k};
      left := left - {k};
    }
    assert values.Keys - left == values.Keys;
    assert Restrict(values, values.Keys) == values;
    return Some(acc);
  }

  /** The body step of both proxies. */
  method MaterializeBody(req: Request, b64: seq<byte> -> string) returns (r: BodyResult)
    ensures r == BodyOf(req, b64)
  {
    if !CarriesBody(req.verb) {
      return Materialized(map[]);
    }
    if req.form.None? {
      if req.contentType == "" {
        return MissingContentType;
      }
      return Materialized(req.bound);
    }
    var mf := req.form.value;
    var request := EncodeFiles(mf.files, b64);
    var withValues := EncodeValues(request, mf.values);
    if withValues.None? {
      return EmptyFormValue;
    }
    return Materialized(withValues.value);
  }

  /**
   * Multipart file fields: a field with a single readable file becomes that
   * file's encoding; a field with several files, all readable, becomes the
   * list of their encodings in file order.
   */
  lemma FileFieldShapes(files: map<string, seq<FilePart>>, b64: seq<byte> -> string, k: string)
    requires k in files
    requires forall i :: 0 <= i < |files[k]| ==> files[k][i].content.Some?
    ensures |files[k]| == 1 ==> FileFields(files, b64)[k] == Str(b64(files[k][0].content.value))
    ensures |files[k]| > 1 ==>
      && FileFields(files, b64)[k].Strs?
      && |FileFields(files, b64)[k].xs| == |files[k]|
      && forall i :: 0 <= i < |files[k]| ==> FileFields(files, b64)[k].xs[i] == b64(files[k][i].content.value)
  {
    EncodedAllReadable(files[k], b64);
  }

  /**
   * For a body-carrying verb with a multipart form, a value field overrides a
   * file field of the same name, and a field with no readable file is absent.
   */
  lemma FormFieldPrecedence(req: Request, b64: seq<byte> -> string, k: string)
    requires CarriesBody(req.verb) && req.form.Some? && FormValuesPresent(req.form.value.values)
    ensures BodyOf(req, b64).Materialized?
    ensures k in req.form.value.values ==> BodyOf(req, b64).payload[k] == ValueOf(req.form.value.values[k])
    ensures k !in req.form.value.values && k in req.form.value.files && Encoded(req.form.value.files[k], b64) == [] ==>
      k !in BodyOf(req, b64).payload
  {
  }

  /** 415 happens exactly for a body-carrying verb, a non-multipart body and an empty content type. */
  lemma MissingContentTypeExactly(req: Request, b64: seq<byte> -> string)
    ensures BodyOf(req, b64) == MissingContentType <==> CarriesBody(req.verb) && req.form.None? && req.contentType == ""
  {
  }

  /**
   * The request object after the parameter loop: the parameters overwrite
   * same-named body entries; the other body entries stay.
   */
  function Merge(body: Payload, params: map<string, string>): (r: Payload)
    ensures r.Keys == body.Keys + params.Keys
    ensures forall p :: p in params ==> r[p] == Str(params[p])
    ensures forall k :: k in body && k !in params ==> r[k] == body[k]
  {
    body + map p | p in params :: Str(params[p])
  }

  /** The parameter loop over the request object. */
  method MergeParams(body: Payload, params: map<string, string>) returns (r: Payload)
    ensures r == Merge(body, params)
  {
    r := body;
    var left := params.Keys;
    while left != {}
      invariant left <= params.Keys
      invariant r == body + map p | p in params && p !in left :: Str(params[p])
      decreases left
    {
      var p :| p in left;
      r := r[p := Str(params[p])];
      left := left - {p};
    }
  }
}
