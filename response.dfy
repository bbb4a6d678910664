/**
 * Response frames. `ResponseData` is the value of a response's six fields; the class
 * `Response` is the mutable object with chainable setters that the code passes around.
 * Fields that were never set hold `Undefined`.
 */
module WebSocketResponse {
  import opened Options
  import opened JsonValues

  /** WebSocketResponseType.Server: a push not tied to any call. */
  const SERVER: int := 1
  /** WebSocketResponseType.Client: the reply to one call. */
  const CLIENT: int := 2

  datatype ResponseData = ResponseData(
    success: Json, rtype: Json, callback: Json, message: Json, value: Json, debug: Json)

  /** A fresh object from `new WebSocketResponse(flagSuccess)`: only the flag is set. */
  function Blank(flagSuccess: Json): ResponseData {
    ResponseData(flagSuccess, Undefined, Undefined, Undefined, Undefined, Undefined)
  }

  /** `WebSocketResponse.success()`. */
  function SuccessResponse(): (r: ResponseData)
    ensures Truthy(r.success)
    ensures r.rtype == r.callback == r.message == r.value == r.debug == Undefined
  {
    Blank(Bool(true))
  }

  /**
   * `WebSocketResponse.error()`. It declares no parameter, so a diagnostic text passed
   * to it is dropped and the message stays unset.
   */
  function ErrorResponse(): (r: ResponseData)
    ensures !Truthy(r.success) && r.success.Bool?
    ensures r.rtype == r.callback == r.message == r.value == r.debug == Undefined
  {
    Blank(Bool(false))
  }

  /** `toJSON`: the fields under the short wire keys. */
  function Encode(r: ResponseData): (j: Json)
    ensures j.Obj? && j.fields.Keys == {"s", "t", "c", "m", "v", "d"}
    ensures Get(j, "s") == r.success && Get(j, "t") == r.rtype && Get(j, "c") == r.callback
    ensures Get(j, "m") == r.message && Get(j, "v") == r.value && Get(j, "d") == r.debug
  {
    Obj(map["s" := r.success, "t" := r.rtype, "c" := r.callback,
            "m" := r.message, "v" := r.value, "d" := r.debug])
  }

  /**
   * `WebSocketResponse.parse`: null when the text is not JSON, when the document is
   * falsy or when its `t` member is falsy; otherwise all six members copied as they are.
   */
  function Decode(t: Text): (r: Option<ResponseData>)
    ensures r.None? <==> Parse(t).None? || !Truthy(Parse(t).value) || !Truthy(Get(Parse(t).value, "t"))
    ensures r.Some? ==> Truthy(r.value.rtype)
  {
    match Parse(t)
    case None => None
    case Some(obj) =>
      if !Truthy(obj) || !Truthy(Get(obj, "t")) then None
      else Some(ResponseData(Get(obj, "s"), Get(obj, "t"), Get(obj, "c"),
                             Get(obj, "m"), Get(obj, "v"), Get(obj, "d")))
  }

  /** Each field after a stringify/parse. */
  function Normalized(r: ResponseData): ResponseData {
    ResponseData(Normalize(r.success), Normalize(r.rtype), Normalize(r.callback),
                 Normalize(r.message), Normalize(r.value), Normalize(r.debug))
  }

  /** A response whose fields are each unset or parsed JSON. */
  predicate Transmittable(r: ResponseData) {
    Normalized(r) == r
  }

  /** Any response with a truthy type crosses the wire as its fields' own stringify/parse. */
  lemma DecodeEncode(r: ResponseData)
    requires Truthy(r.rtype)
    ensures Decode(Stringify(Encode(r))) == Some(Normalized(r))
  {
    var doc := Normalize(Encode(r));
    GetNormalize(Encode(r), "t");
    TruthyNormalize(r.rtype);
    GetNormalize(Encode(r), "s");
    GetNormalize(Encode(r), "c");
    GetNormalize(Encode(r), "m");
    GetNormalize(Encode(r), "v");
    GetNormalize(Encode(r), "d");
  }

  /** Round trip: `parse(JSON.stringify(r.toJSON()))` has exactly r's fields. */
  lemma RoundTrip(r: ResponseData)
    requires Truthy(r.rtype) && Transmittable(r)
    ensures Decode(Stringify(Encode(r))) == Some(r)
  {
    DecodeEncode(r);
  }

  /** An absent, null, zero or empty `t` makes the frame unparseable, whatever else it holds. */
  lemma DecodeRejectsFalsyType(fields: map<string, Json>)
    requires "t" !in fields || fields["t"] in {Null, Num(0), Str(""), Bool(false), Undefined}
    ensures Decode(Wire(Obj(fields))) == None
  {
  }

  /** Any truthy `t` is accepted, not only the two response types. */
  lemma DecodeAcceptsAnyTruthyType(fields: map<string, Json>)
    requires "t" in fields && Truthy(fields["t"])
    ensures Decode(Wire(Obj(fields))).Some?
    ensures Decode(Wire(Obj(fields))).value.rtype == fields["t"]
  {
  }

  /** The mutable response object with chainable setters. */
  class Response {
    var flagSuccess: Json
    var rtype: Json
    var callback: Json
    var message: Json
    var value: Json
    var debug: Json

    function Snapshot(): ResponseData
      reads this
    {
      ResponseData(flagSuccess, rtype, callback, message, value, debug)
    }

    constructor (flagSuccess: Json)
      ensures Snapshot() == Blank(flagSuccess)
    {
      this.flagSuccess := flagSuccess;
      rtype, callback, message, value, debug := Undefined, Undefined, Undefined, Undefined, Undefined;
    }

    static method Success() returns (r: Response)
      ensures fresh(r) && r.Snapshot() == SuccessResponse()
    {
      r := new Response(Bool(true));
    }

    static method Error() returns (r: Response)
      ensures fresh(r) && r.Snapshot() == ErrorResponse()
    {
      r := new Response(Bool(false));
    }

    method SetType(t: Json) returns (self: Response)
      modifies this
      ensures self == this && Snapshot() == old(Snapshot()).(rtype := t)
    {
      rtype := t;
      self := this;
    }

    method SetCallback(c: Json) returns (self: Response)
      modifies this
      ensures self == this && Snapshot() == old(Snapshot()).(callback := c)
    {
      callback := c;
      self := this;
    }

    method SetMessage(m: Json) returns (self: Response)
      modifies this
      ensures self == this && Snapshot() == old(Snapshot()).(message := m)
    {
      message := m;
      self := this;
    }

    method SetValue(v: Json) returns (self: Response)
      modifies this
      ensures self == this && Snapshot() == old(Snapshot()).(value := v)
    {
      value := v;
      self := this;
    }

    method SetDebug(d: Json) returns (self: Response)
      modifies this
      ensures self == this && Snapshot() == old(Snapshot()).(debug := d)
    {
      debug := d;
      self := this;
    }

    function ToJson(): Json
      reads this
    {
      Encode(Snapshot())
    }

    /** `WebSocketResponse.parse`, building the object through the setter chain. */
    static method Parse(text: Text) returns (r: Response?)
      ensures r == null <==> Decode(text).None?
      ensures r != null ==> fresh(r) && r.Snapshot() == Decode(text).value
    {
      match JsonValues.Parse(text)
      case None => r := null;
      case Some(obj) =>
        if !Truthy(obj) || !Truthy(Get(obj, "t")) {
          r := null;
        } else {
          var created := new Response(Get(obj, "s"));
          var chain := created.SetType(Get(obj, "t"));
          chain := chain.SetCallback(Get(obj, "c"));
          chain := chain.SetMessage(Get(obj, "m"));
          chain := chain.SetValue(Get(obj, "v"));
          chain := chain.SetDebug(Get(obj, "d"));
          r := chain;
        }
    }
  }
}
