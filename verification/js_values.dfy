/**
 * The JavaScript values the webhook handler sees once a request body has been
 * deserialised, and the handful of JavaScript operators the handler applies to
 * them: `typeof`, truthiness, optional-chaining property reads, the `in`
 * operator, nullish coalescing and string conversion in template literals.
 *
 * Thrown exceptions are values here (`Fault`), and an operation that may throw
 * returns an `Attempt`.
 */
module JsValues {

  /** A value that may be `undefined` (or, where noted, `null`). */
  datatype Option<+T> = None | Some(value: T) {

    /** Nullish coalescing `x ?? default` on a value that may be missing. */
    function GetOr(default: T): T {
      match this
      case Some(v) => v
      case None => default
    }
  }

  /**
   * What a `catch` clause can receive: an `Error` with its message, a thrown
   * value that is not an `Error`, or the engine's own `TypeError`.
   */
  datatype Fault = Raised(message: string) | RaisedNonError | TypeError

  /** The outcome of an expression that either yields a value or throws. */
  datatype Attempt<+T> = Ok(value: T) | Threw(fault: Fault)

  /** The outcome of an awaited call that yields nothing of interest. */
  datatype Outcome = Pass | Fail(fault: Fault)

  /**
   * A value produced by `JSON.parse`. Numbers are restricted to integers.
   * Duplicate object keys collapse to the last one, as a map does.
   */
  datatype Json =
    | Null
    | Bool(b: bool)
    | Num(n: int)
    | Str(s: string)
    | Arr(items: seq<Json>)
    | Obj(fields: map<string, Json>)

  /** The `typeof` operator. */
  function TypeOf(v: Json): (t: string)
    ensures t == "object" <==> (v.Null? || v.Arr? || v.Obj?)
  {
    match v
    case Null => "object"
    case Bool(_) => "boolean"
    case Num(_) => "number"
    case Str(_) => "string"
    case Arr(_) => "object"
    case Obj(_) => "object"
  }

  /** JavaScript truthiness (ToBoolean), decided by the kind of value. */
  predicate Truthy(v: Json) {
    match v
    case Null => false
    case Bool(b) => b
    case Num(n) => n != 0
    case Str(s) => s != ""
    case Arr(_) => true
    case Obj(_) => true
  }

  /** The falsy values are exactly `null`, `false`, `0` and `""`; every array and object is truthy. */
  lemma FalsyValues(v: Json)
    ensures !Truthy(v) <==> v in {Null, Bool(false), Num(0), Str("")}
  {
  }

  /** Truthiness of a value that may be `undefined` (which is falsy). */
  predicate TruthyOrUndefined(v: Option<Json>) {
    v.Some? && Truthy(v.value)
  }

  /**
   * The optional-chaining read `v?.key`, with `undefined` as `None`. Only
   * object members are found: the keys this handler reads are none of an
   * array's indices or `length`, and none of them is inherited from a
   * prototype, so every other kind of value yields `undefined`.
   */
  function Field(v: Json, key: string): Option<Json> {
    if v.Obj? && key in v.fields then Some(v.fields[key]) else None
  }

  /**
   * The `in` operator `key in v`, for the keys the handler asks about
   * (`message`, `edited_message`, `message_id`, `chat`): none is an array
   * index, `length` or a member inherited from a prototype, so only an
   * object's own keys are found. It throws a `TypeError` unless `v` is an
   * object or an array.
   */
  function HasProperty(key: string, v: Json): Attempt<bool> {
    match v
    case Obj(fields) => Ok(key in fields)
    case Arr(_) => Ok(false)
    case _ => Threw(TypeError)
  }

  /**
   * The `in` test and the read that follows it agree: `key in v` is true
   * exactly when `v?.key` finds a value, and it throws exactly for the values
   * whose `typeof` is not "object" and for `null`.
   */
  lemma InAgreesWithRead(key: string, v: Json)
    ensures HasProperty(key, v) == Ok(true) <==> Field(v, key).Some?
    ensures HasProperty(key, v).Threw? <==> TypeOf(v) != "object" || v == Null
    ensures HasProperty(key, v).Threw? ==> HasProperty(key, v).fault == TypeError
  {
  }

  /** The decimal digits of a natural number. */
  function NatDecimal(n: nat): string
    decreases n
  {
    if n < 10 then ["0123456789"[n]] else NatDecimal(n / 10) + ["0123456789"[n % 10]]
  }

  /** `String(n)` for an integer. */
  function IntDecimal(n: int): string {
    if n < 0 then "-" + NatDecimal(-n) else NatDecimal(n)
  }

  /**
   * The values whose string conversion throws. A parsed object with its own
   * `toString` key has no callable `toString`, and its `valueOf` (its own,
   * equally uncallable, or the inherited one returning the object itself)
   * yields no primitive, so the conversion throws a `TypeError`; an array
   * converts its elements and throws when one of them does.
   */
  ghost predicate Unprintable(v: Json) {
    match v
    case Obj(fields) => "toString" in fields
    case Arr(items) => exists i :: 0 <= i < |items| && Unprintable(items[i])
    case _ => false
  }

  /**
   * `String(v)`, the conversion a template literal applies to an interpolated
   * value. Arrays join their elements with commas, writing `null` as nothing;
   * other objects print as `[object Object]`.
   */
  function ToJsString(v: Json): (r: Attempt<string>)
    ensures r.Threw? <==> Unprintable(v)
    ensures r.Threw? ==> r.fault == TypeError
    ensures v.Str? ==> r == Ok(v.s)
    decreases v, 1
  {
    match v
    case Null => Ok("null")
    case Bool(b) => Ok(if b then "true" else "false")
    case Num(n) => Ok(IntDecimal(n))
    case Str(s) => Ok(s)
    case Arr(items) => JoinElements(v, 0)
    case Obj(fields) => if "toString" in fields then Threw(TypeError) else Ok("[object Object]")
  }

  /** `Array.prototype.join(",")` on the elements of `arr` from index `k` on. */
  function JoinElements(arr: Json, k: nat): (r: Attempt<string>)
    requires arr.Arr? && k <= |arr.items|
    ensures r.Threw? <==> exists i :: k <= i < |arr.items| && Unprintable(arr.items[i])
    ensures r.Threw? ==> r.fault == TypeError
    decreases arr, 0, |arr.items| - k
  {
    if k == |arr.items| then Ok("")
    else
      var element := if arr.items[k].Null? then Ok("") else ToJsString(arr.items[k]);
      if element.Threw? then element
      else if k + 1 == |arr.items| then element
      else
        match JoinElements(arr, k + 1)
        case Threw(f) => Threw(f)
        case Ok(rest) => Ok(element.value + "," + rest)
  }
}
