/**
 * Properties of the client and the server talking to each other: a request the client
 * sends, answered by a server context and read back by the client, names the very call
 * it answers, and carries the handler's own outcome.
 */
module Protocol {
  import opened Options
  import opened JsonValues
  import Res = WebSocketResponse
  import Req = WebSocketRequest
  import opened WebSocketDecorator
  import Dispatch
  import opened WebSocketClient

  /** The text a client puts on the wire for a pending call. */
  function RequestText(p: PendingCall): Text {
    Stringify(Req.Encode(RequestOf(p)))
  }

  /** The reply the client reads back after a server context with `methods` answered `p`. */
  function ReplyRead(p: PendingCall, methods: map<string, Handler>, ctx: nat): Option<Res.ResponseData> {
    Res.Decode(Stringify(Res.Encode(Dispatch.ReplyFor(RequestText(p), methods, ctx))))
  }

  /** The server reads a client's request back with its id, its two names and its arguments as stringified. */
  lemma RequestArrives(p: PendingCall)
    requires p.callback >= 1
    ensures Req.Decode(RequestText(p))
         == Some(Req.Request(Num(p.callback), Str(p.target), Str(p.message), Normalize(Arr(p.args))))
  {
    Req.DecodeEncode(RequestOf(p));
  }

  /**
   * Correlation: whatever the server's table holds, the reply to call `p` is a ClientReply
   * whose callback names `p`'s id, so the client settles `p` when it is still pending.
   */
  lemma {:induction false} ReplyCorrelates(p: PendingCall, methods: map<string, Handler>, ctx: nat,
                                           pool: map<nat, PendingCall>)
    requires p.callback >= 1
    ensures ReplyRead(p, methods, ctx).Some?
    ensures ReplyRead(p, methods, ctx).value.rtype == Num(Res.CLIENT)
    ensures PoolKey(ReplyRead(p, methods, ctx).value.callback) == Some(p.callback)
    ensures ReplyTarget(ReplyRead(p, methods, ctx).value, pool)
         == (if p.callback in pool then Some(p.callback) else None)
  {
    RequestArrives(p);
    var reply := Dispatch.ReplyFor(RequestText(p), methods, ctx);
    Res.DecodeEncode(reply);
    NumKey(p.callback);
  }

  /**
   * The outcome travels: when the pair is registered, the client settles `p` with the
   * handler's own success flag, message and value, as they read after a stringify.
   */
  lemma {:induction false} HandlerOutcomeArrives(p: PendingCall, methods: map<string, Handler>, ctx: nat)
    requires p.callback >= 1
    requires Lookup(methods, p.target, p.message).Some?
    ensures ReplyRead(p, methods, ctx).Some?
    ensures
      var own := Lookup(methods, p.target, p.message).value(HandlerArgs(p, ctx));
      ReplySettlement(p.callback, ReplyRead(p, methods, ctx).value)
        == if Truthy(own.success) then Settlement(p.callback, Resolved, Normalize(own.message), Normalize(own.value))
           else Settlement(p.callback, Rejected, Normalize(own.message), Str("hi"))
  {
    RequestArrives(p);
    var req := Req.Decode(RequestText(p)).value;
    assert Dispatch.HandlerFor(methods, req) == Lookup(methods, p.target, p.message);
    assert Dispatch.ArgsOf(req) == Normalize(Arr(p.args)).items;
    var reply := Dispatch.ReplyFor(RequestText(p), methods, ctx);
    Res.DecodeEncode(reply);
    TruthyNormalize(reply.success);
  }

  /** The arguments a handler receives for `p`: the context first, then `p`'s arguments as stringified. */
  function HandlerArgs(p: PendingCall, ctx: nat): seq<Arg> {
    Dispatch.CallArgs(ctx, Normalize(Arr(p.args)).items)
  }

  /**
   * An unknown pair is answered with a failure the client still correlates: the call is
   * rejected, with an undefined message and the value 'hi'.
   */
  lemma {:induction false} UnknownPairRejects(p: PendingCall, methods: map<string, Handler>, ctx: nat)
    requires p.callback >= 1
    requires Lookup(methods, p.target, p.message).None?
    ensures ReplyRead(p, methods, ctx).Some?
    ensures ReplySettlement(p.callback, ReplyRead(p, methods, ctx).value)
         == Settlement(p.callback, Rejected, Undefined, Str("hi"))
  {
    RequestArrives(p);
    var req := Req.Decode(RequestText(p)).value;
    assert Dispatch.HandlerFor(methods, req) == Lookup(methods, p.target, p.message);
    var reply := Dispatch.ReplyFor(RequestText(p), methods, ctx);
    Res.DecodeEncode(reply);
    TruthyNormalize(reply.success);
  }
}
