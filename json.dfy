/**
 * JavaScript values as they travel in frames: what `JSON.parse` can return, plus
 * `undefined` for fields that were never set. Numbers are integers here.
 */
module JsonValues {
  import opened Options
  import Keys

  datatype Json =
    | Undefined
    | Null
    | Bool(b: bool)
    | Num(n: int)
    | Str(s: string)
    | Arr(items: seq<Json>)
    | Obj(fields: map<string, Json>)

  /** JavaScript truthiness: what `!v` negates. */
  predicate Truthy(v: Json) {
    match v
    case Undefined => false
    case Null => false
    case Bool(b) => b
    case Num(n) => n != 0
    case Str(s) => s != ""
    case Arr(_) => true
    case Obj(_) => true
  }

  /** Property read `v.key` for the short frame keys: absent keys and non-objects give undefined. */
  function Get(v: Json, key: string): Json {
    if v.Obj? && key in v.fields then v.fields[key] else Undefined
  }

  /**
   * What `JSON.parse(JSON.stringify(v))` gives back for an object or array `v`: object
   * members whose value is undefined disappear and undefined array items become null.
   */
  function Normalize(v: Json): Json {
    match v
    case Arr(items) =>
      Arr(seq(|items|, i requires 0 <= i < |items| =>
        if items[i] == Undefined then Null else Normalize(items[i])))
    case Obj(fields) =>
      Obj(map k | k in fields && fields[k] != Undefined :: Normalize(fields[k]))
    case _ => v
  }

  /** A value `JSON.parse` can produce: no undefined anywhere inside it. */
  predicate IsDocument(v: Json) {
    match v
    case Undefined => false
    case Arr(items) => forall i | 0 <= i < |items| :: IsDocument(items[i])
    case Obj(fields) => forall k | k in fields :: IsDocument(fields[k])
    case _ => true
  }

  /** The text of one socket message: either well-formed JSON for `doc`, or anything else. */
  datatype Text = Wire(doc: Json) | Garbage(raw: string)

  /** `JSON.parse`, with its exception as None. */
  function Parse(t: Text): Option<Json> {
    match t
    case Wire(doc) => Some(doc)
    case Garbage(_) => None
  }

  /** `JSON.stringify` of an object built by a `toJSON`. */
  function Stringify(v: Json): Text {
    Wire(Normalize(v))
  }

  /** `String(v)`: the text a value turns into when it is used as a property key or joined with `+`. */
  function ToStr(v: Json): string {
    match v
    case Undefined => "undefined"
    case Null => "null"
    case Bool(b) => if b then "true" else "false"
    case Num(n) => Keys.IntText(n)
    case Str(s) => s
    case Arr(items) =>
      Join(seq(|items|, i requires 0 <= i < |items| =>
        if items[i].Undefined? || items[i].Null? then "" else ToStr(items[i])))
    case Obj(_) => "[object Object]"
  }

  /** `Array.prototype.join(',')` over the items' texts. */
  function Join(parts: seq<string>): string {
    if |parts| == 0 then ""
    else if |parts| == 1 then parts[0]
    else Join(parts[..|parts| - 1]) + "," + parts[|parts| - 1]
  }

  lemma {:induction false} NormalizeIsDocument(v: Json)
    requires v != Undefined
    ensures IsDocument(Normalize(v))
  {
    match v
    case Arr(items) =>
      forall i | 0 <= i < |items| && items[i] != Undefined
        ensures IsDocument(Normalize(items[i]))
      {
        NormalizeIsDocument(items[i]);
      }
    case Obj(fields) =>
      forall k | k in fields && fields[k] != Undefined
        ensures IsDocument(Normalize(fields[k]))
      {
        NormalizeIsDocument(fields[k]);
      }
    case _ =>
  }

  /** Parsed JSON survives another stringify/parse unchanged. */
  lemma {:induction false} NormalizeKeepsDocument(v: Json)
    requires IsDocument(v)
    ensures Normalize(v) == v
  {
    match v
    case Arr(items) =>
      forall i | 0 <= i < |items|
        ensures Normalize(items[i]) == items[i]
      {
        NormalizeKeepsDocument(items[i]);
      }
      assert Normalize(v).items == items;
    case Obj(fields) =>
      forall k | k in fields
        ensures Normalize(fields[k]) == fields[k]
      {
        NormalizeKeepsDocument(fields[k]);
      }
      assert Normalize(v).fields == fields;
    case _ =>
  }

  /** A second stringify/parse changes nothing. */
  lemma NormalizeIdempotent(v: Json)
    ensures Normalize(Normalize(v)) == Normalize(v)
  {
    if v != Undefined {
      NormalizeIsDocument(v);
      NormalizeKeepsDocument(Normalize(v));
    }
  }

  /** Reading a member after a stringify/parse gives the member's own stringify/parse. */
  lemma GetNormalize(v: Json, key: string)
    ensures Get(Normalize(v), key) == Normalize(Get(v, key))
  {
  }

  /** Stringify/parse never changes whether a value is truthy. */
  lemma TruthyNormalize(v: Json)
    ensures Truthy(Normalize(v)) == Truthy(v)
  {
  }

  /** Non-negative numbers used as keys read back as themselves. */
  lemma NumKey(n: nat)
    ensures Keys.KeyToId(ToStr(Num(n))) == Some(n)
  {
    Keys.KeyRoundTrip(n);
  }
}
