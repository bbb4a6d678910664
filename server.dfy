/**
 * The server side: the connection registry (WebSocketServer's static `seed` and
 * `clientHash`), the server's start guard, and one context per accepted connection.
 * They share a module because the registry stores contexts and a closing context
 * unregisters itself. The transport is left out: `outbox` records what `ws.send` was given.
 */
module WebSocketServer {
  import opened JsonValues
  import opened WebSocketResponse
  import Req = WebSocketRequest
  import opened WebSocketDecorator
  import Dispatch

  /** Registry of live connections: strictly increasing handles from 1 (below 2^53), never reused. */
  class ConnectionRegistry {
    var seed: nat
    var clientHash: map<nat, Context>

    ghost predicate Valid()
      reads this
    {
      seed >= 1 && forall h | h in clientHash :: 1 <= h < seed && clientHash[h].handle == h
    }

    constructor ()
      ensures Valid() && seed == 1 && clientHash == map[]
    {
      seed, clientHash := 1, map[];
    }

    /** `register(ws)`: the new context gets the current seed as its handle. */
    method Register() returns (ctx: Context)
      requires Valid()
      modifies this
      ensures Valid() && fresh(ctx)
      ensures ctx.handle == old(seed) && ctx.outbox == []
      ensures old(seed) !in old(clientHash)
      ensures clientHash == old(clientHash)[old(seed) := ctx]
      ensures seed == old(seed) + 1
    {
      ctx := new Context(seed);
      clientHash := clientHash[seed := ctx];
      seed := seed + 1;
    }

    /** `unregister(ctx)`: true iff the context's handle was present; only that entry goes. */
    method Unregister(ctx: Context) returns (found: bool)
      requires Valid()
      modifies this
      ensures Valid() && seed == old(seed)
      ensures found == (ctx.handle in old(clientHash))
      ensures clientHash == old(clientHash) - {ctx.handle}
    {
      found := ctx.handle in clientHash;
      if found {
        clientHash := clientHash - {ctx.handle};
      }
    }
  }

  class Server {
    const port: int
    const registry: ConnectionRegistry
    /** Whether `wss` has been created. */
    var listening: bool

    constructor (port: int, registry: ConnectionRegistry)
      ensures this.port == port && this.registry == registry && !listening
    {
      this.port, this.registry := port, registry;
      listening := false;
    }

    /** `start()`: throws (false here) when already started. */
    method Start() returns (ok: bool)
      modifies this
      ensures ok == !old(listening) && listening
    {
      if listening {
        return false;
      }
      listening := true;
      ok := true;
    }

    /** The server's `connection` event: every accepted socket is registered. */
    method OnConnection() returns (ctx: Context)
      requires registry.Valid()
      modifies registry
      ensures registry.Valid() && fresh(ctx) && ctx.handle == old(registry.seed) && ctx.outbox == []
      ensures ctx.handle !in old(registry.clientHash)
      ensures registry.clientHash == old(registry.clientHash)[ctx.handle := ctx]
      ensures registry.seed == old(registry.seed) + 1
    {
      ctx := registry.Register();
    }
  }

  /** One accepted connection. */
  class Context {
    const handle: nat
    /** The texts given to `ws.send`, oldest first. */
    var outbox: seq<Text>

    constructor (handle: nat)
      ensures this.handle == handle && outbox == []
    {
      this.handle := handle;
      outbox := [];
    }

    method Send(json: Json)
      modifies this
      ensures outbox == old(outbox) + [Stringify(json)]
    {
      outbox := outbox + [Stringify(json)];
    }

    /**
     * `onMessage`, with the missing-arguments throw corrected: one reply per inbound text,
     * the one Dispatch.ReplyFor decides. Wherever the code as written replies, this is
     * the very reply it sends.
     */
    method OnMessage(text: Text, table: DispatchTable)
      modifies this
      ensures outbox == old(outbox) + [Stringify(Encode(Dispatch.ReplyFor(text, table.methodHash, handle)))]
      ensures Dispatch.ReplyAsWritten(text, table.methodHash, handle).Some? ==>
        outbox == old(outbox) + [Stringify(Encode(Dispatch.ReplyAsWritten(text, table.methodHash, handle).value))]
    {
      Dispatch.AsWrittenAgrees(text, table.methodHash, handle);
      var request := Req.Decode(text);
      if request.None? {
        var r := Response.Error();
        r := r.SetType(Num(SERVER));
        Send(r.ToJson());
        return;
      }
      var req := request.value;
      var found := table.GetMethod(ToStr(req.target), ToStr(req.message));
      if found.None? {
        var r := Response.Error();
        r := r.SetCallback(req.callback);
        r := r.SetType(Num(CLIENT));
        Send(r.ToJson());
        return;
      }
      var callArgs := Dispatch.CallArgs(handle, Dispatch.ArgsOf(req));
      var ret := found.value(callArgs);
      Send(Encode(Dispatch.Stamp(ret, req.callback)));
    }

    /** `onClose`: the context unregisters itself. */
    method OnClose(registry: ConnectionRegistry)
      requires registry.Valid()
      modifies registry
      ensures registry.Valid() && registry.seed == old(registry.seed)
      ensures registry.clientHash == old(registry.clientHash) - {handle}
    {
      var _ := registry.Unregister(this);
    }
  }
}
