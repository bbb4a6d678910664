/**
 * Request frames. A request is built once and never changed, so it is a value; the
 * constructor's arguments are its fields and the getters are the field selectors.
 * `parse` passes the members through untyped, so every field is a Json value.
 */
module WebSocketRequest {
  import opened Options
  import opened JsonValues

  datatype Request = Request(callback: Json, target: Json, message: Json, args: Json)

  /** `toJSON`: the fields under the short wire keys. */
  function Encode(r: Request): (j: Json)
    ensures j.Obj? && j.fields.Keys == {"c", "t", "m", "a"}
    ensures Get(j, "c") == r.callback && Get(j, "t") == r.target
    ensures Get(j, "m") == r.message && Get(j, "a") == r.args
  {
    Obj(map["c" := r.callback, "t" := r.target, "m" := r.message, "a" := r.args])
  }

  /**
   * `WebSocketRequest.parse`: null when the text is not JSON, when the document is
   * falsy, or when its `c` member is falsy (absent, null, 0, ""); otherwise the four
   * members as they are, missing ones as undefined.
   */
  function Decode(t: Text): (r: Option<Request>)
    ensures r.None? <==> Parse(t).None? || !Truthy(Parse(t).value) || !Truthy(Get(Parse(t).value, "c"))
    ensures r.Some? ==> Truthy(r.value.callback)
  {
    match Parse(t)
    case None => None
    case Some(obj) =>
      if !Truthy(obj) || !Truthy(Get(obj, "c")) then None
      else Some(Request(Get(obj, "c"), Get(obj, "t"), Get(obj, "m"), Get(obj, "a")))
  }

  function Normalized(r: Request): Request {
    Request(Normalize(r.callback), Normalize(r.target), Normalize(r.message), Normalize(r.args))
  }

  /** Any request with a truthy callback crosses the wire as its fields' own stringify/parse. */
  lemma DecodeEncode(r: Request)
    requires Truthy(r.callback)
    ensures Decode(Stringify(Encode(r))) == Some(Normalized(r))
  {
    GetNormalize(Encode(r), "c");
    TruthyNormalize(r.callback);
    GetNormalize(Encode(r), "t");
    GetNormalize(Encode(r), "m");
    GetNormalize(Encode(r), "a");
  }

  /** Round trip for the requests the client builds: a non-zero id, two names and parsed-JSON arguments. */
  lemma RoundTrip(callback: int, target: string, message: string, args: seq<Json>)
    requires callback != 0
    requires forall i | 0 <= i < |args| :: IsDocument(args[i])
    ensures Decode(Stringify(Encode(Request(Num(callback), Str(target), Str(message), Arr(args)))))
         == Some(Request(Num(callback), Str(target), Str(message), Arr(args)))
  {
    var r := Request(Num(callback), Str(target), Str(message), Arr(args));
    DecodeEncode(r);
    NormalizeKeepsDocument(Arr(args));
  }

  /** A falsy callback (absent, null, 0, "") makes the frame unparseable. */
  lemma DecodeRejectsFalsyCallback(fields: map<string, Json>)
    requires "c" !in fields || fields["c"] in {Null, Num(0), Str(""), Bool(false), Undefined}
    ensures Decode(Wire(Obj(fields))) == None
  {
  }

  /** Only the callback is checked: target, message and args may be missing. */
  lemma DecodeToleratesMissingFields(c: Json)
    requires Truthy(c)
    ensures Decode(Wire(Obj(map["c" := c]))) == Some(Request(c, Undefined, Undefined, Undefined))
  {
  }
}
