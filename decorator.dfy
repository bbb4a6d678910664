/**
 * The dispatch table: target paths claimed by decorated classes, and handlers stored
 * under `target + '#' + message`. Both tables are process-wide in the code; here they
 * are the two fields of one `DispatchTable` object.
 */
module WebSocketDecorator {
  import opened Options
  import opened JsonValues
  import opened WebSocketResponse

  /** An argument of a handler call: the connection's context or a JSON value from the request. */
  datatype Arg = ContextArg(handle: nat) | ValueArg(value: Json)

  /** A handler method: from its argument list to the response it builds. */
  type Handler = seq<Arg> -> ResponseData

  /** The four errors the decorators throw. */
  datatype DecoratorError = DuplicatePath | NotTarget | EmptyMessageName | NameMismatch

  /** The table key of a (target, message) pair. */
  function MethodKey(target: string, message: string): string {
    target + "#" + message
  }

  /**
   * The checks `WebSocketMethod` runs before storing a handler, in their order: the
   * class must carry a truthy target path, the message name must be non-empty, and the
   * method must be named `'on' + messageName`.
   */
  function CheckMethod(targetPath: Option<string>, messageName: string, name: string): (r: Outcome<DecoratorError>)
    ensures r == Pass <==> targetPath.Some? && targetPath.value != "" && messageName != "" && name == "on" + messageName
    ensures (targetPath.None? || targetPath == Some("")) ==> r == Fail(NotTarget)
    ensures r == Fail(NameMismatch) ==> messageName != "" && name != "on" + messageName
  {
    if targetPath.None? || targetPath.value == "" then Fail(NotTarget)
    else if messageName == "" then Fail(EmptyMessageName)
    else if "on" + messageName != name then Fail(NameMismatch)
    else Pass
  }

  /** `getMethod(t, m)`: the handler stored under `t + '#' + m`, if any. */
  function Lookup(methods: map<string, Handler>, target: string, message: string): (r: Option<Handler>)
    ensures r.Some? <==> target + "#" + message in methods
    ensures r.Some? ==> r.value == methods[target + "#" + message]
  {
    var key := MethodKey(target, message);
    if key in methods then Some(methods[key]) else None
  }

  /** Storing a handler under a pair's key is seen by that pair's lookup and by no other key's. */
  lemma LookupAfterStore(methods: map<string, Handler>, t: string, m: string, h: Handler, t': string, m': string)
    ensures Lookup(methods[MethodKey(t, m) := h], t', m')
         == if MethodKey(t', m') == MethodKey(t, m) then Some(h) else Lookup(methods, t', m')
  {
  }

  /** When target paths contain no '#', distinct pairs have distinct keys. */
  lemma {:induction false} MethodKeyInjective(t1: string, m1: string, t2: string, m2: string)
    requires '#' !in t1 && '#' !in t2
    requires MethodKey(t1, m1) == MethodKey(t2, m2)
    ensures t1 == t2 && m1 == m2
  {
    var key := MethodKey(t1, m1);
    assert |t1| == |t2| by {
      assert key[|t1|] == '#' && key[|t2|] == '#';
    }
    assert t1 == key[..|t1|] == t2;
    assert m1 == key[|t1| + 1..] == m2;
  }

  /** A '#' inside a target path lets two different pairs share one handler. */
  lemma MethodKeyCollision(methods: map<string, Handler>)
    ensures Lookup(methods, "a#b", "c") == Lookup(methods, "a", "b#c")
  {
    assert MethodKey("a#b", "c") == MethodKey("a", "b#c");
  }

  /** A class that `@WebSocketTarget(path)` may decorate; `targetPath` is its `$$Target$$`. */
  class TargetClass {
    var targetPath: Option<string>

    constructor ()
      ensures targetPath == None
    {
      targetPath := None;
    }
  }

  class DispatchTable {
    var targetHash: map<string, TargetClass>
    var methodHash: map<string, Handler>

    constructor ()
      ensures targetHash == map[] && methodHash == map[]
    {
      targetHash, methodHash := map[], map[];
    }

    /** `@WebSocketTarget(path)` applied to `cls`: rejects a path already claimed. */
    method RegisterTarget(path: string, cls: TargetClass) returns (r: Outcome<DecoratorError>)
      modifies this, cls
      ensures methodHash == old(methodHash)
      ensures old(path in targetHash) ==>
        r == Fail(DuplicatePath) && targetHash == old(targetHash) && cls.targetPath == old(cls.targetPath)
      ensures old(path !in targetHash) ==>
        r == Pass && targetHash == old(targetHash)[path := cls] && cls.targetPath == Some(path)
    {
      if path in targetHash {
        return Fail(DuplicatePath);
      }
      cls.targetPath := Some(path);
      targetHash := targetHash[path := cls];
      r := Pass;
    }

    /**
     * The deferred body of `@WebSocketMethod(messageName)` on method `name` of `cls`.
     * The code runs it from a zero-delay timer, after the class decorator has run; this
     * method is that timer callback. There is no duplicate check: a key already present
     * is overwritten.
     */
    method RegisterMethod(cls: TargetClass, messageName: string, name: string, handler: Handler)
      returns (r: Outcome<DecoratorError>)
      modifies this
      ensures targetHash == old(targetHash)
      ensures r == CheckMethod(cls.targetPath, messageName, name)
      ensures r.Fail? ==> methodHash == old(methodHash)
      ensures r.Pass? ==> methodHash == old(methodHash)[MethodKey(cls.targetPath.value, messageName) := handler]
    {
      if cls.targetPath.None? || cls.targetPath.value == "" {
        return Fail(NotTarget);
      }
      if messageName == "" {
        return Fail(EmptyMessageName);
      }
      if "on" + messageName != name {
        return Fail(NameMismatch);
      }
      methodHash := methodHash[MethodKey(cls.targetPath.value, messageName) := handler];
      r := Pass;
    }

    /** `getMethod(t, m)` on this table: found exactly when a handler is stored under `t#m`. */
    function GetMethod(target: string, message: string): (r: Option<Handler>)
      reads this
      ensures r.Some? <==> target + "#" + message in methodHash
      ensures r.Some? ==> r.value == methodHash[target + "#" + message]
    {
      Lookup(methodHash, target, message)
    }
  }
}
