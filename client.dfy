/**
 * The client connection: a socket whose readiness the transport changes, a table of
 * pending calls keyed by call id, a listener table, and the reconnect spacing. Time is
 * the `now` parameter of the operations that read the clock; promise outcomes are
 * recorded in `settled` (and in `scheduled` while a 10 ms timer still holds them);
 * listener callbacks are recorded as `notices`; socket sends as `sent`.
 */
module WebSocketClient {
  import opened Options
  import opened JsonValues
  import Keys
  import Res = WebSocketResponse
  import Req = WebSocketRequest

  /** Fixed part of the required spacing between connection attempts (ms). */
  const CONNECT_STEP: int := 1500
  /** Upper bound of that spacing (ms). */
  const MAX_CONNECT_INTERVAL: int := 8000
  /** Default call timeout (ms). */
  const DEFAULT_TIMEOUT: int := 16000

  /** The module-level counter behind `getSeed`; call ids and listener keys both come from it. */
  class SeedCounter {
    var seed: nat

    constructor ()
      ensures seed == 0
    {
      seed := 0;
    }

    /** `getSeed()`: each value is larger than every earlier one (below 2^53). */
    method Next() returns (n: nat)
      modifies this
      ensures n == old(seed) + 1 && seed == n
    {
      seed := seed + 1;
      n := seed;
    }
  }

  datatype ReadyState = Connecting | Open | Closing | Closed

  /** `webSocket`: null, or a socket in one of its four ready states. */
  datatype Socket = NoSocket | Socket(ready: ReadyState)

  datatype Settled = Resolved | Rejected

  /** The outcome of one call's promise: `{message, value}` resolved or rejected. */
  datatype Settlement = Settlement(id: nat, kind: Settled, message: Json, value: Json)

  /** A `SendMessage`: the call's issue time, id and request parts. */
  datatype PendingCall = PendingCall(time: int, callback: nat, target: string, message: string, args: seq<Json>)

  /**
   * An observer, as far as the client's own state depends on it: whether it provides
   * `onOpen`, which a late listener is called with directly. Its other callbacks are
   * only reached through broadcasts.
   */
  datatype Observer = Observer(onOpen: bool)

  /** The log levels the client broadcasts at. */
  datatype LogLevel = Debug | Warn | Error

  /** One `invokeListeners` broadcast, or the direct `onOpen` a late listener receives. */
  datatype Notice =
    | OpenAll
    | ServerMessageAll(message: Json, value: Json)
    | ErrorAll
    | CloseAll
    | LogAll(level: LogLevel)
    | OpenOne(key: nat)

  /** A socket `message` event: string data, or anything else. */
  datatype MessageEvent = TextEvent(data: Text) | OtherEvent

  /** `Math.min(8000, nextConnectInterval + 1500)`. */
  function NeedInterval(nextConnectInterval: int): (r: int)
    ensures r <= MAX_CONNECT_INTERVAL && r <= nextConnectInterval + CONNECT_STEP
    ensures r == MAX_CONNECT_INTERVAL || r == nextConnectInterval + CONNECT_STEP
    ensures nextConnectInterval >= 0 ==> CONNECT_STEP <= r <= MAX_CONNECT_INTERVAL
  {
    if nextConnectInterval + CONNECT_STEP < MAX_CONNECT_INTERVAL then nextConnectInterval + CONNECT_STEP
    else MAX_CONNECT_INTERVAL
  }

  /** Whether a connection attempt is due: more than the required spacing since the last one. */
  predicate AttemptDue(nextConnectInterval: int, lastConnectTimeMS: int, now: int) {
    now - lastConnectTimeMS > NeedInterval(nextConnectInterval)
  }

  /**
   * Across attempts the required spacing never shrinks, and until it reaches the cap it
   * grows by more than the step: the gap actually observed becomes the next interval.
   */
  lemma SpacingGrows(nextConnectInterval: int, lastConnectTimeMS: int, now: int)
    requires nextConnectInterval >= 0 && lastConnectTimeMS > 0
    requires AttemptDue(nextConnectInterval, lastConnectTimeMS, now)
    ensures now - lastConnectTimeMS > 0
    ensures NeedInterval(now - lastConnectTimeMS) >= NeedInterval(nextConnectInterval)
    ensures NeedInterval(now - lastConnectTimeMS) == MAX_CONNECT_INTERVAL
         || NeedInterval(now - lastConnectTimeMS) > NeedInterval(nextConnectInterval) + CONNECT_STEP
  {
  }

  predicate SocketClosed(s: Socket) {
    s == NoSocket || s == Socket(Closed)
  }

  /** The request a pending call sends (`toWebSocketRequest`). */
  function RequestOf(p: PendingCall): Req.Request {
    Req.Request(Num(p.callback), Str(p.target), Str(p.message), Arr(p.args))
  }

  function Rejection(id: nat, message: string): Settlement {
    Settlement(id, Rejected, Str(message), Null)
  }

  /** How a matched reply settles its call: resolved on a truthy success flag, else rejected with value 'hi'. */
  function ReplySettlement(id: nat, r: Res.ResponseData): (s: Settlement)
    ensures s.id == id && s.message == r.message
    ensures s.kind == Resolved <==> Truthy(r.success)
    ensures s.value == if s.kind == Resolved then r.value else Str("hi")
  {
    if Truthy(r.success) then Settlement(id, Resolved, r.message, r.value)
    else Settlement(id, Rejected, r.message, Str("hi"))
  }

  /** The call id a reply's callback names: `evalPool[callback]` looks the key up by its text. */
  function PoolKey(callback: Json): Option<nat> {
    Keys.KeyToId(ToStr(callback))
  }

  /** A callback names call `n` exactly when its text is `n`'s key. */
  lemma PoolKeyExact(callback: Json, n: nat)
    ensures PoolKey(callback) == Some(n) <==> ToStr(callback) == Keys.Decimal(n)
  {
    Keys.KeyMatches(ToStr(callback), n);
  }

  /** The pending call a parsed frame settles, if it is a ClientReply for a call still in the table. */
  function ReplyTarget(r: Res.ResponseData, pool: map<nat, PendingCall>): Option<nat> {
    if r.rtype == Num(Res.CLIENT) && PoolKey(r.callback).Some? && PoolKey(r.callback).value in pool
    then PoolKey(r.callback) else None
  }

  /** The calls a sweep at `now` finds timed out: older than `timeout`, strictly. */
  function Expired(pool: map<nat, PendingCall>, now: int, timeout: int): set<nat> {
    set n | n in pool && now - pool[n].time > timeout
  }

  function KeySet(keys: seq<nat>): set<nat> {
    set k | k in keys
  }

  function Ids(log: seq<Settlement>): set<nat> {
    set i | 0 <= i < |log| :: log[i].id
  }

  /** No call is settled twice. */
  predicate Distinct(log: seq<Settlement>) {
    forall i, j | 0 <= i < j < |log| :: log[i].id != log[j].id
  }

  /** `log` rejects each call in `ids` exactly once with `message` and value null, and nothing else. */
  predicate RejectedExactly(log: seq<Settlement>, ids: set<nat>, message: string) {
    && (forall i | 0 <= i < |log| :: log[i] == Rejection(log[i].id, message))
    && Distinct(log)
    && Ids(log) == ids
  }

  lemma IdsConcat(a: seq<Settlement>, b: seq<Settlement>)
    ensures Ids(a + b) == Ids(a) + Ids(b)
  {
    forall n | n in Ids(a) ensures n in Ids(a + b) {
      var i :| 0 <= i < |a| && a[i].id == n;
      assert (a + b)[i].id == n;
    }
    forall n | n in Ids(b) ensures n in Ids(a + b) {
      var i :| 0 <= i < |b| && b[i].id == n;
      assert (a + b)[|a| + i].id == n;
    }
  }

  /** Settling a call not yet settled keeps every call settled at most once. */
  lemma InsertFresh(a: seq<Settlement>, x: Settlement, b: seq<Settlement>)
    requires Distinct(a + b) && x.id !in Ids(a + b)
    ensures Distinct(a + [x] + b)
    ensures Ids(a + [x] + b) == Ids(a + b) + {x.id}
  {
    var s := a + [x] + b;
    forall i, j | 0 <= i < j < |s| ensures s[i].id != s[j].id {
      if i < |a| && j > |a| {
        assert s[j] == (a + b)[j - 1];
        assert s[i] == (a + b)[i];
      } else if i > |a| {
        assert s[j] == (a + b)[j - 1] && s[i] == (a + b)[i - 1];
      } else if i == |a| {
        assert s[j] == (a + b)[j - 1];
        assert s[j].id in Ids(a + b);
      } else {
        assert j == |a| ==> s[i].id in Ids(a + b) by { assert s[i] == (a + b)[i]; }
        assert j < |a| ==> s[j] == (a + b)[j] && s[i] == (a + b)[i];
      }
    }
    IdsConcat(a, b);
    IdsConcat(a + [x], b);
    IdsConcat(a, [x]);
    assert Ids([x]) == {x.id} by { assert [x][0] == x; }
  }

  class Client {
    const sockUrl: string
    const timeout: int
    const flagDebug: bool
    const seeds: SeedCounter

    var nextConnectInterval: int
    var lastConnectTimeMS: int
    var flagStart: bool
    var evalPool: map<nat, PendingCall>
    var webSocket: Socket
    var listeners: map<nat, Observer>

    var settled: seq<Settlement>
    var scheduled: seq<Settlement>
    var notices: seq<Notice>
    var sent: seq<Text>

    /**
     * Every pending call, listener and settled promise carries an id already handed out;
     * no call is settled twice and no pending call is settled yet; the interval is non-negative.
     */
    ghost predicate Valid()
      reads this, seeds
    {
      && nextConnectInterval >= 0
      && (forall n | n in evalPool :: 1 <= n <= seeds.seed && evalPool[n].callback == n)
      && (forall n | n in listeners :: 1 <= n <= seeds.seed)
      && Distinct(settled + scheduled)
      && (forall n | n in Ids(settled + scheduled) :: n <= seeds.seed && n !in evalPool)
    }

    /** The fields the call operations change. */
    function Calls(): (map<nat, PendingCall>, seq<Settlement>, seq<Settlement>, seq<Text>)
      reads this
    {
      (evalPool, settled, scheduled, sent)
    }

    /** The fields the connection operations change. */
    function Connection(): (Socket, int, int, seq<Notice>)
      reads this
    {
      (webSocket, nextConnectInterval, lastConnectTimeMS, notices)
    }

    /**
     * What `connect()` leaves behind, given the state it started from: an attempt (a new
     * CONNECTING socket, `lastConnectTimeMS := now`, and the observed gap as the next
     * interval when there was an earlier attempt) exactly when the socket is closed and
     * the spacing has passed; otherwise nothing.
     */
    ghost predicate ConnectEffect(socket0: Socket, interval0: int, last0: int, notices0: seq<Notice>, now: int)
      reads this
    {
      if SocketClosed(socket0) && AttemptDue(interval0, last0, now) then
        && webSocket == Socket(Connecting)
        && lastConnectTimeMS == now
        && nextConnectInterval == (if last0 > 0 then now - last0 else interval0)
        && notices == notices0 + (if last0 > 0 then [LogAll(Warn)] else [])
      else
        Connection() == (socket0, interval0, last0, notices0)
    }

    constructor (sockUrl: string, seeds: SeedCounter, timeout: int := DEFAULT_TIMEOUT, flagDebug: bool := false)
      ensures Valid() && this.seeds == seeds
      ensures this.sockUrl == sockUrl && this.timeout == timeout && this.flagDebug == flagDebug
      ensures !flagStart && webSocket == NoSocket && nextConnectInterval == 0 && lastConnectTimeMS == 0
      ensures evalPool == map[] && listeners == map[]
      ensures settled == [] && scheduled == [] && notices == [] && sent == []
    {
      this.sockUrl, this.seeds, this.timeout, this.flagDebug := sockUrl, seeds, timeout, flagDebug;
      nextConnectInterval, lastConnectTimeMS, flagStart := 0, 0, false;
      evalPool, webSocket, listeners := map[], NoSocket, map[];
      settled, scheduled, notices, sent := [], [], [], [];
    }

    /** `isConnected()`: a socket that is OPEN; such a client is never closed. */
    predicate IsConnected()
      reads this
      ensures IsConnected() ==> !IsClosed()
    {
      webSocket == Socket(Open)
    }

    /** `isClosed()`: no socket, or a CLOSED one; an open or connecting socket is never replaced. */
    predicate IsClosed()
      reads this
      ensures IsClosed() ==> webSocket != Socket(Open) && webSocket != Socket(Connecting)
      ensures webSocket == NoSocket ==> IsClosed()
    {
      SocketClosed(webSocket)
    }

    /** `addListener`: a fresh key; a connected client greets an observer that has `onOpen`. */
    method AddListener(observer: Observer) returns (key: string)
      requires Valid()
      modifies this, seeds
      ensures Valid()
      ensures seeds.seed == old(seeds.seed) + 1 && Keys.KeyToId(key) == Some(seeds.seed)
      ensures seeds.seed !in old(listeners)
      ensures listeners == old(listeners)[seeds.seed := observer]
      ensures notices == old(notices)
        + (if old(IsConnected()) && observer.onOpen then [OpenOne(seeds.seed)] else [])
      ensures Calls() == old(Calls()) && flagStart == old(flagStart)
      ensures webSocket == old(webSocket)
      ensures nextConnectInterval == old(nextConnectInterval) && lastConnectTimeMS == old(lastConnectTimeMS)
    {
      var id := seeds.Next();
      key := Keys.Decimal(id);
      Keys.KeyRoundTrip(id);
      listeners := listeners[id := observer];
      if IsConnected() && observer.onOpen {
        notices := notices + [OpenOne(id)];
      }
    }

    /** `removeListener(handler)`: true iff the key is present, and then only that key goes. */
    method RemoveListener(handler: string) returns (found: bool)
      requires Valid()
      modifies this
      ensures Valid()
      ensures found <==> Keys.KeyToId(handler).Some? && Keys.KeyToId(handler).value in old(listeners)
      ensures found ==> listeners == old(listeners) - {Keys.KeyToId(handler).value}
      ensures !found ==> listeners == old(listeners)
      ensures Calls() == old(Calls()) && Connection() == old(Connection()) && flagStart == old(flagStart)
    {
      var id := Keys.KeyToId(handler);
      if id.Some? && id.value in listeners {
        listeners := listeners - {id.value};
        return true;
      }
      found := false;
    }

    /** `connect()`: an attempt only when closed and the spacing has passed. */
    method Connect(now: int)
      requires Valid()
      modifies this
      ensures Valid()
      ensures ConnectEffect(old(webSocket), old(nextConnectInterval), old(lastConnectTimeMS), old(notices), now)
      ensures Calls() == old(Calls()) && listeners == old(listeners) && flagStart == old(flagStart)
    {
      if IsClosed() {
        var needInterval := NeedInterval(nextConnectInterval);
        if now - lastConnectTimeMS > needInterval {
          if lastConnectTimeMS > 0 {
            nextConnectInterval := now - lastConnectTimeMS;
            notices := notices + [LogAll(Warn)];
          }
          lastConnectTimeMS := now;
          webSocket := Socket(Connecting);
        }
      }
    }

    /** `connectNow()`: clears the spacing, then `connect()`. */
    method ConnectNow(now: int)
      requires Valid()
      modifies this
      ensures Valid()
      ensures ConnectEffect(old(webSocket), 0, 0, old(notices), now)
      ensures Calls() == old(Calls()) && listeners == old(listeners) && flagStart == old(flagStart)
    {
      nextConnectInterval, lastConnectTimeMS := 0, 0;
      Connect(now);
    }

    /** `disconnect()`: closes an OPEN or CONNECTING socket, which becomes CLOSING. */
    method Disconnect() returns (closing: bool)
      requires Valid()
      modifies this
      ensures Valid()
      ensures closing <==> old(webSocket) == Socket(Open) || old(webSocket) == Socket(Connecting)
      ensures webSocket == if closing then Socket(Closing) else old(webSocket)
      ensures nextConnectInterval == old(nextConnectInterval) && lastConnectTimeMS == old(lastConnectTimeMS)
      ensures notices == old(notices)
      ensures Calls() == old(Calls()) && listeners == old(listeners) && flagStart == old(flagStart)
    {
      if webSocket == NoSocket {
        return false;
      }
      if webSocket.ready == Open || webSocket.ready == Connecting {
        webSocket := Socket(Closing);
        return true;
      }
      closing := false;
    }

    /** `start()`: refused when started; otherwise clears the spacing and the table and connects. */
    method Start(now: int) returns (ok: bool)
      requires Valid()
      modifies this
      ensures Valid()
      ensures ok == !old(flagStart) && flagStart
      ensures !ok ==> Calls() == old(Calls()) && Connection() == old(Connection())
      ensures ok ==> evalPool == map[] && ConnectEffect(old(webSocket), 0, 0, old(notices), now)
      ensures settled == old(settled) && scheduled == old(scheduled) && sent == old(sent)
      ensures listeners == old(listeners)
    {
      if flagStart {
        return false;
      }
      nextConnectInterval, lastConnectTimeMS := 0, 0;
      evalPool := map[];
      flagStart := true;
      Connect(now);
      ok := true;
    }

    /**
     * `stop()`: refused when not started; otherwise closes the socket, and drops the
     * pending calls without settling them.
     */
    method Stop() returns (ok: bool)
      requires Valid()
      modifies this
      ensures Valid()
      ensures ok == old(flagStart) && !flagStart
      ensures !ok ==> Calls() == old(Calls()) && Connection() == old(Connection())
      ensures ok ==> evalPool == map[] && nextConnectInterval == 0 && lastConnectTimeMS == 0
      ensures ok ==> webSocket == if old(webSocket) in {Socket(Open), Socket(Connecting)} then Socket(Closing) else old(webSocket)
      ensures settled == old(settled) && scheduled == old(scheduled) && sent == old(sent)
      ensures notices == old(notices) && listeners == old(listeners)
    {
      if !flagStart {
        return false;
      }
      flagStart := false;
      var _ := Disconnect();
      evalPool := map[];
      nextConnectInterval, lastConnectTimeMS := 0, 0;
      ok := true;
    }

    /** The transport moves the current socket to another ready state. */
    method SetReadyState(ready: ReadyState)
      requires Valid() && webSocket != NoSocket
      modifies this
      ensures Valid() && webSocket == Socket(ready)
      ensures nextConnectInterval == old(nextConnectInterval) && lastConnectTimeMS == old(lastConnectTimeMS)
      ensures notices == old(notices)
      ensures Calls() == old(Calls()) && listeners == old(listeners) && flagStart == old(flagStart)
    {
      webSocket := Socket(ready);
    }

    /** `onOpen`: the spacing is cleared and the listeners are told. */
    method OnOpen()
      requires Valid()
      modifies this
      ensures Valid()
      ensures nextConnectInterval == 0 && lastConnectTimeMS == 0
      ensures notices == old(notices) + [OpenAll] && webSocket == old(webSocket)
      ensures Calls() == old(Calls()) && listeners == old(listeners) && flagStart == old(flagStart)
    {
      nextConnectInterval, lastConnectTimeMS := 0, 0;
      notices := notices + [OpenAll];
    }

    /** `onError`: the listeners are told; nothing else changes. */
    method OnError()
      requires Valid()
      modifies this
      ensures Valid()
      ensures notices == old(notices) + [ErrorAll] && webSocket == old(webSocket)
      ensures nextConnectInterval == old(nextConnectInterval) && lastConnectTimeMS == old(lastConnectTimeMS)
      ensures Calls() == old(Calls()) && listeners == old(listeners) && flagStart == old(flagStart)
    {
      notices := notices + [ErrorAll];
    }

    /** `onClose`: the socket is dropped and every pending call is rejected once with 'WebSocketClose'. */
    method OnClose()
      requires Valid()
      modifies this
      ensures Valid()
      ensures webSocket == NoSocket && evalPool == map[]
      ensures |settled| >= |old(settled)| && settled[..|old(settled)|] == old(settled)
      ensures RejectedExactly(settled[|old(settled)|..], old(evalPool).Keys, "WebSocketClose")
      ensures notices == old(notices) + [CloseAll]
      ensures scheduled == old(scheduled) && sent == old(sent)
      ensures nextConnectInterval == old(nextConnectInterval) && lastConnectTimeMS == old(lastConnectTimeMS)
      ensures listeners == old(listeners) && flagStart == old(flagStart)
    {
      webSocket := NoSocket;
      var remaining := evalPool.Keys;
      while remaining != {}
        invariant remaining <= evalPool.Keys && evalPool == old(evalPool) && webSocket == NoSocket
        invariant |settled| >= |old(settled)| && settled[..|old(settled)|] == old(settled)
        invariant RejectedExactly(settled[|old(settled)|..], evalPool.Keys - remaining, "WebSocketClose")
        invariant Distinct(settled + scheduled)
        invariant Ids(settled + scheduled) == Ids(old(settled) + old(scheduled)) + (evalPool.Keys - remaining)
        invariant scheduled == old(scheduled) && sent == old(sent) && notices == old(notices)
        invariant nextConnectInterval == old(nextConnectInterval) && lastConnectTimeMS == old(lastConnectTimeMS)
        invariant listeners == old(listeners) && flagStart == old(flagStart) && seeds.seed == old(seeds.seed)
        decreases remaining
      {
        var key :| key in remaining;
        var x := Rejection(key, "WebSocketClose");
        InsertFresh(settled, x, scheduled);
        ghost var batch := settled[|old(settled)|..];
        assert batch + [] == batch && batch + [x] + [] == batch + [x];
        InsertFresh(batch, x, []);
        assert (settled + [x])[|old(settled)|..] == batch + [x];
        assert evalPool.Keys - (remaining - {key}) == (evalPool.Keys - remaining) + {key};
        settled := settled + [x];
        remaining := remaining - {key};
      }
      evalPool := map[];
      notices := notices + [CloseAll];
    }

    /**
     * `send(target, message, ...args)`: a fresh call id every time. Connected: the call
     * enters the table and its request is sent. Otherwise the table is untouched and a
     * 10 ms timer will reject the call with 'WebSocketClose'.
     */
    method Send(target: string, message: string, args: seq<Json>, now: int) returns (id: nat)
      requires Valid()
      modifies this, seeds
      ensures Valid()
      ensures id == old(seeds.seed) + 1 && seeds.seed == id
      ensures id !in old(evalPool) && id !in old(listeners) && id !in Ids(old(settled) + old(scheduled))
      ensures old(IsConnected()) ==>
        && evalPool == old(evalPool)[id := PendingCall(now, id, target, message, args)]
        && sent == old(sent) + [Stringify(Req.Encode(RequestOf(PendingCall(now, id, target, message, args))))]
        && scheduled == old(scheduled)
        && notices == old(notices) + (if flagDebug then [LogAll(Debug)] else [])
      ensures !old(IsConnected()) ==>
        && evalPool == old(evalPool) && sent == old(sent) && notices == old(notices)
        && scheduled == old(scheduled) + [Rejection(id, "WebSocketClose")]
      ensures settled == old(settled) && webSocket == old(webSocket)
      ensures nextConnectInterval == old(nextConnectInterval) && lastConnectTimeMS == old(lastConnectTimeMS)
      ensures listeners == old(listeners) && flagStart == old(flagStart)
    {
      var callback := seeds.Next();
      var msg := PendingCall(now, callback, target, message, args);
      if IsConnected() {
        if flagDebug {
          notices := notices + [LogAll(Debug)];
        }
        evalPool := evalPool[callback := msg];
        sent := sent + [Stringify(Req.Encode(RequestOf(msg)))];
      } else {
        var x := Rejection(callback, "WebSocketClose");
        assert settled + scheduled + [] == settled + scheduled;
        InsertFresh(settled + scheduled, x, []);
        assert settled + (scheduled + [x]) == settled + scheduled + [x] + [];
        scheduled := scheduled + [x];
      }
      id := callback;
    }

    /** The 10 ms timer of an unconnected `send` fires: its rejection takes effect. */
    method FireDeferredReject()
      requires Valid() && scheduled != []
      modifies this
      ensures Valid()
      ensures settled == old(settled) + [old(scheduled)[0]] && scheduled == old(scheduled)[1..]
      ensures evalPool == old(evalPool) && sent == old(sent) && Connection() == old(Connection())
      ensures listeners == old(listeners) && flagStart == old(flagStart)
    {
      assert settled + scheduled == (settled + [scheduled[0]]) + scheduled[1..];
      settled := settled + [scheduled[0]];
      scheduled := scheduled[1..];
    }

    /** The first pass of the tick: the ids of the calls older than `timeout`, each once. */
    method TimedOut(now: int) returns (timeoutKeys: seq<nat>)
      ensures KeySet(timeoutKeys) == Expired(evalPool, now, timeout)
      ensures forall i, j | 0 <= i < j < |timeoutKeys| :: timeoutKeys[i] != timeoutKeys[j]
    {
      timeoutKeys := [];
      var remaining := evalPool.Keys;
      while remaining != {}
        invariant remaining <= evalPool.Keys
        invariant forall i | 0 <= i < |timeoutKeys| :: timeoutKeys[i] !in remaining
        invariant KeySet(timeoutKeys) == Expired(evalPool, now, timeout) - remaining
        invariant forall i, j | 0 <= i < j < |timeoutKeys| :: timeoutKeys[i] != timeoutKeys[j]
        decreases remaining
      {
        var key :| key in remaining;
        if now - evalPool[key].time > timeout {
          assert KeySet(timeoutKeys + [key]) == KeySet(timeoutKeys) + {key};
          timeoutKeys := timeoutKeys + [key];
        }
        remaining := remaining - {key};
      }
    }

    /** Removes one pending call and rejects it: `delete evalPool[key]; deferred.reject(...)`. */
    method Reject(key: nat, message: string)
      requires Valid() && key in evalPool
      modifies this
      ensures Valid()
      ensures evalPool == old(evalPool) - {key} && settled == old(settled) + [Rejection(key, message)]
      ensures scheduled == old(scheduled) && sent == old(sent) && Connection() == old(Connection())
      ensures listeners == old(listeners) && flagStart == old(flagStart)
    {
      var x := Rejection(key, message);
      InsertFresh(settled, x, scheduled);
      evalPool := evalPool - {key};
      settled := settled + [x];
    }

    /**
     * The second pass of the tick: every call older than `timeout` leaves the table and is
     * rejected once with 'Timeout'; every other call stays.
     */
    method Expire(now: int)
      requires Valid()
      modifies this
      ensures Valid()
      ensures evalPool == old(evalPool) - Expired(old(evalPool), now, timeout)
      ensures |settled| >= |old(settled)| && settled[..|old(settled)|] == old(settled)
      ensures RejectedExactly(settled[|old(settled)|..], Expired(old(evalPool), now, timeout), "Timeout")
      ensures scheduled == old(scheduled) && sent == old(sent) && Connection() == old(Connection())
      ensures listeners == old(listeners) && flagStart == old(flagStart)
    {
      var timeoutKeys := TimedOut(now);
      ghost var pool0, settled0 := evalPool, settled;
      ghost var connection0 := Connection();
      var i := 0;
      while i < |timeoutKeys|
        invariant 0 <= i <= |timeoutKeys|
        invariant Valid()
        invariant evalPool == pool0 - KeySet(timeoutKeys[..i])
        invariant |settled| >= |settled0| && settled[..|settled0|] == settled0
        invariant RejectedExactly(settled[|settled0|..], KeySet(timeoutKeys[..i]), "Timeout")
        invariant scheduled == old(scheduled) && sent == old(sent) && Connection() == connection0
        invariant listeners == old(listeners) && flagStart == old(flagStart)
      {
        var key := timeoutKeys[i];
        assert key in evalPool by {
          assert key in KeySet(timeoutKeys);
          assert key !in KeySet(timeoutKeys[..i]);
        }
        ghost var batch := settled[|settled0|..];
        var x := Rejection(key, "Timeout");
        assert batch + [] == batch && batch + [x] + [] == batch + [x];
        InsertFresh(batch, x, []);
        assert KeySet(timeoutKeys[..i + 1]) == KeySet(timeoutKeys[..i]) + {key} by {
          assert timeoutKeys[..i + 1] == timeoutKeys[..i] + [key];
        }
        Reject(key, "Timeout");
        assert settled[|settled0|..] == batch + [x];
        i := i + 1;
      }
      assert timeoutKeys[..i] == timeoutKeys;
    }

    /**
     * The 1 s timer tick. When started: the timed-out calls are expired as by `Expire`,
     * then `connect()` runs. When not started nothing changes.
     */
    method OnTimer(now: int)
      requires Valid()
      modifies this
      ensures Valid()
      ensures !old(flagStart) ==> Calls() == old(Calls()) && Connection() == old(Connection())
      ensures old(flagStart) ==> evalPool == old(evalPool) - Expired(old(evalPool), now, timeout)
      ensures |settled| >= |old(settled)| && settled[..|old(settled)|] == old(settled)
      ensures old(flagStart) ==>
        RejectedExactly(settled[|old(settled)|..], Expired(old(evalPool), now, timeout), "Timeout")
      ensures old(flagStart) ==>
        ConnectEffect(old(webSocket), old(nextConnectInterval), old(lastConnectTimeMS), old(notices), now)
      ensures scheduled == old(scheduled) && sent == old(sent)
      ensures listeners == old(listeners) && flagStart == old(flagStart)
    {
      if !flagStart {
        return;
      }
      Expire(now);
      Connect(now);
    }

    /**
     * `onMessage`: non-string data is ignored; an unparseable frame only logs an error;
     * a ClientReply for a call in the table settles that call once and removes it; a
     * ClientReply for any other id changes nothing; a ServerPush goes to the listeners.
     */
    method OnMessage(evt: MessageEvent)
      requires Valid()
      modifies this
      ensures Valid()
      ensures evt.OtherEvent? ==> Calls() == old(Calls()) && notices == old(notices)
      ensures evt.TextEvent? && Res.Decode(evt.data).None? ==>
        Calls() == old(Calls()) && notices == old(notices) + [LogAll(Error)]
      ensures evt.TextEvent? && Res.Decode(evt.data).Some? ==>
        var r := Res.Decode(evt.data).value;
        && notices == old(notices) + (if flagDebug then [LogAll(Debug)] else [])
             + (if r.rtype == Num(Res.SERVER) then [ServerMessageAll(r.message, r.value)] else [])
        && match ReplyTarget(r, old(evalPool))
           case Some(n) => evalPool == old(evalPool) - {n} && settled == old(settled) + [ReplySettlement(n, r)]
           case None => evalPool == old(evalPool) && settled == old(settled)
      ensures scheduled == old(scheduled) && sent == old(sent) && webSocket == old(webSocket)
      ensures nextConnectInterval == old(nextConnectInterval) && lastConnectTimeMS == old(lastConnectTimeMS)
      ensures listeners == old(listeners) && flagStart == old(flagStart)
    {
      if evt.OtherEvent? {
        return;
      }
      var response := Res.Response.Parse(evt.data);
      if response == null {
        notices := notices + [LogAll(Error)];
        return;
      }
      if flagDebug {
        notices := notices + [LogAll(Debug)];
      }
      if response.rtype == Num(Res.CLIENT) {
        var key := PoolKey(response.callback);
        if key.None? || key.value !in evalPool {
          return;
        }
        var s;
        if Truthy(response.flagSuccess) {
          s := Settlement(key.value, Resolved, response.message, response.value);
        } else {
          s := Settlement(key.value, Rejected, response.message, Str("hi"));
        }
        InsertFresh(settled, s, scheduled);
        settled := settled + [s];
        evalPool := evalPool - {key.value};
      } else if response.rtype == Num(Res.SERVER) {
        notices := notices + [ServerMessageAll(response.message, response.value)];
      }
    }
  }
}
