/**
 * The request body of a POST, seen abstractly: what `parseBody` resolves or
 * rejects with, and what the property access `body.name` then yields.
 * JSON text itself is not modelled; `JSON.parse` is a parameter.
 */
module Body {
  import opened Wrappers

  /** A parsed JSON value; of an object only its `name` property matters. */
  datatype JsonValue =
    | Null
    | Bool(b: bool)
    | Num
    | Str(s: string)
    | Arr
    | Obj(nameField: Option<JsonValue>)

  /** Outcome of `parseBody`: the promise rejected, or it resolved to a value. */
  datatype BodyParse = Malformed | Parsed(value: JsonValue)

  /** What the request stream delivered: the whole text, or an 'error' event. */
  datatype Received = Complete(text: string) | StreamFailed

  /**
   * `parseBody`: an empty payload resolves to `{}` without calling the
   * parser; a non-empty one resolves to whatever `parse` yields; a stream
   * error rejects the promise.
   */
  function ParseBody(received: Received, parse: string -> BodyParse): (r: BodyParse)
    ensures received == Complete("") ==> r == Parsed(Obj(None))
    ensures received == StreamFailed ==> r == Malformed
    ensures received.Complete? && received.text != "" ==> r == parse(received.text)
  {
    match received
    case StreamFailed => Malformed
    case Complete(text) => if text == "" then Parsed(Obj(None)) else parse(text)
  }

  /** Result of evaluating `body.name`: a TypeError, or the property (undefined = None). */
  datatype Lookup = Throws | Found(property: Option<JsonValue>)

  /**
   * `body.name`: reading a property of `null` throws; strings, numbers,
   * booleans and arrays have no own or inherited `name`, so it is undefined.
   */
  function NameOf(body: JsonValue): (r: Lookup)
    ensures r == Throws <==> body == Null
    ensures body.Obj? ==> r == Found(body.nameField)
    ensures r.Found? && r.property.Some? ==> body == Obj(r.property)
  {
    match body
    case Null => Throws
    case Obj(field) => Found(field)
    case _ => Found(None)
  }

  /**
   * The negation of `!name || typeof name !== 'string'`: the property is a
   * string, and a truthy one, which for a string means non-empty.
   */
  predicate NameAccepted(name: Option<JsonValue>)
  {
    name.Some? && name.value.Str? && name.value.s != ""
  }
}
