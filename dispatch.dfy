/**
 * The reply a server connection sends for one inbound text (WebSocketContext.onMessage):
 * a ServerPush error for an unparseable frame, a ClientReply error for an unknown
 * `target#message`, and otherwise the handler's response stamped with the request's
 * callback and the ClientReply type.
 */
module Dispatch {
  import opened Options
  import opened JsonValues
  import opened WebSocketResponse
  import Req = WebSocketRequest
  import opened WebSocketDecorator

  /** `callArgs.unshift(this)`: the context goes in front of the request's arguments. */
  function CallArgs(ctx: nat, args: seq<Json>): (r: seq<Arg>)
    ensures |r| == |args| + 1 && r[0] == ContextArg(ctx)
    ensures forall i | 0 <= i < |args| :: r[i + 1] == ValueArg(args[i])
  {
    [ContextArg(ctx)] + seq(|args|, i requires 0 <= i < |args| => ValueArg(args[i]))
  }

  /** `ret.setCallback(c).setType(Client)`. */
  function Stamp(r: ResponseData, callback: Json): ResponseData {
    r.(callback := callback, rtype := Num(CLIENT))
  }

  /** The handler registered for a request's pair; target and message are turned into text as `+` does. */
  function HandlerFor(methods: map<string, Handler>, req: Req.Request): Option<Handler> {
    Lookup(methods, ToStr(req.target), ToStr(req.message))
  }

  /**
   * The code as written. When a handler exists but the request's `a` member is not an
   * array, `callArgs.unshift` throws inside the async handler and nothing is sent: None.
   */
  function ReplyAsWritten(text: Text, methods: map<string, Handler>, ctx: nat): (r: Option<ResponseData>)
    ensures Req.Decode(text).None? ==> r.Some? && r.value.rtype == Num(SERVER) && !Truthy(r.value.success)
    ensures Req.Decode(text).Some? && r.Some? ==>
      r.value.rtype == Num(CLIENT) && r.value.callback == Req.Decode(text).value.callback
    ensures Req.Decode(text).Some? && HandlerFor(methods, Req.Decode(text).value).None? ==>
      r.Some? && !Truthy(r.value.success)
  {
    match Req.Decode(text)
    case None => Some(ErrorResponse().(rtype := Num(SERVER)))
    case Some(req) =>
      match HandlerFor(methods, req)
      case None => Some(ErrorResponse().(callback := req.callback, rtype := Num(CLIENT)))
      case Some(h) =>
        if req.args.Arr? then Some(Stamp(h(CallArgs(ctx, req.args.items)), req.callback))
        else None
  }

  /** The arguments a request passes, a missing or non-array `a` counting as none. */
  function ArgsOf(req: Req.Request): seq<Json> {
    if req.args.Arr? then req.args.items else []
  }

  /** The reply for every inbound text, with missing arguments passed as an empty list. */
  function ReplyFor(text: Text, methods: map<string, Handler>, ctx: nat): (r: ResponseData)
    ensures r.rtype == Num(SERVER) <==> Req.Decode(text).None?
    ensures Req.Decode(text).None? ==> !Truthy(r.success) && r.callback == Undefined && r.message == Undefined
    ensures Req.Decode(text).Some? ==>
      r.rtype == Num(CLIENT) && r.callback == Req.Decode(text).value.callback
    ensures Req.Decode(text).Some? && HandlerFor(methods, Req.Decode(text).value).None? ==>
      !Truthy(r.success) && r.message == Undefined && r.value == Undefined
    ensures Req.Decode(text).Some? && HandlerFor(methods, Req.Decode(text).value).Some? ==>
      var req := Req.Decode(text).value;
      var own := HandlerFor(methods, req).value(CallArgs(ctx, ArgsOf(req)));
      r.(callback := own.callback, rtype := own.rtype) == own
  {
    match Req.Decode(text)
    case None => ErrorResponse().(rtype := Num(SERVER))
    case Some(req) =>
      match HandlerFor(methods, req)
      case None => ErrorResponse().(callback := req.callback, rtype := Num(CLIENT))
      case Some(h) => Stamp(h(CallArgs(ctx, ArgsOf(req))), req.callback)
  }

  /** The written code replies exactly when it does not hit the missing-arguments throw, and then agrees with ReplyFor. */
  lemma AsWrittenAgrees(text: Text, methods: map<string, Handler>, ctx: nat)
    ensures ReplyAsWritten(text, methods, ctx).None? <==>
      Req.Decode(text).Some? && HandlerFor(methods, Req.Decode(text).value).Some?
      && !Req.Decode(text).value.args.Arr?
    ensures ReplyAsWritten(text, methods, ctx).Some? ==>
      ReplyAsWritten(text, methods, ctx) == Some(ReplyFor(text, methods, ctx))
  {
  }

  /** `{c:7, t:"Echo", m:"Ping"}` with a registered Echo#Ping handler gets no reply from the written code. */
  lemma AsWrittenDropsArglessCall(h: Handler, ctx: nat)
    ensures ReplyAsWritten(Wire(Obj(map["c" := Num(7), "t" := Str("Echo"), "m" := Str("Ping")])),
                           map["Echo#Ping" := h], ctx) == None
    ensures ReplyFor(Wire(Obj(map["c" := Num(7), "t" := Str("Echo"), "m" := Str("Ping")])),
                     map["Echo#Ping" := h], ctx) == Stamp(h([ContextArg(ctx)]), Num(7))
  {
    var text := Wire(Obj(map["c" := Num(7), "t" := Str("Echo"), "m" := Str("Ping")]));
    assert Req.Decode(text) == Some(Req.Request(Num(7), Str("Echo"), Str("Ping"), Undefined));
    assert MethodKey("Echo", "Ping") == "Echo#Ping";
    assert CallArgs(ctx, []) == [ContextArg(ctx)];
  }

  /** `{c:7, t:"Echo", m:"Ping", a:["hi"]}` reaches the handler as (context, "hi") and is answered as call 7. */
  lemma EchoPing(h: Handler, ctx: nat)
    ensures var r := ReplyFor(Wire(Obj(map["c" := Num(7), "t" := Str("Echo"), "m" := Str("Ping"),
                                           "a" := Arr([Str("hi")])])), map["Echo#Ping" := h], ctx);
      && r.callback == Num(7) && r.rtype == Num(CLIENT)
      && r.success == h([ContextArg(ctx), ValueArg(Str("hi"))]).success
      && r.value == h([ContextArg(ctx), ValueArg(Str("hi"))]).value
  {
    var text := Wire(Obj(map["c" := Num(7), "t" := Str("Echo"), "m" := Str("Ping"), "a" := Arr([Str("hi")])]));
    assert Req.Decode(text) == Some(Req.Request(Num(7), Str("Echo"), Str("Ping"), Arr([Str("hi")])));
    assert MethodKey("Echo", "Ping") == "Echo#Ping";
    assert CallArgs(ctx, [Str("hi")]) == [ContextArg(ctx), ValueArg(Str("hi"))];
  }
}
