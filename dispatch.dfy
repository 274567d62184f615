/**
 * The request dispatch decision of the `createServer` callback, as a pure
 * function of the HTTP method, the pathname and the outcome of reading the body.
 * The effect on the store is applied separately (module Store).
 */
module Dispatch {
  import opened Wrappers
  import opened Body

  const NameRequired: string := "Name is required and must be a string"
  const InvalidJson: string := "Invalid JSON in request body"
  const NotFound: string := "Not Found"

  /** What the handler does: the response kind, its status, and the one mutation. */
  datatype Action =
    | Preflight
    | ListItems
    | AppendItem(name: string)
    | Reject(status: nat, message: string)

  function Status(a: Action): (r: nat)
  {
    match a
    case Preflight => 200
    case ListItems => 200
    case AppendItem(_) => 201
    case Reject(status, _) => status
  }

  /**
   * The POST /items branch: parse the body, read `body.name`, validate it.
   * A rejected parse and a throwing `body.name` both land in the catch block.
   */
  function CreateDecision(body: BodyParse): (a: Action)
    ensures a.AppendItem? || a.Reject?
    ensures a.AppendItem? <==> body.Parsed? && body.value.Obj? && NameAccepted(body.value.nameField)
    ensures a.AppendItem? ==> body == Parsed(Obj(Some(Str(a.name)))) && a.name != ""
    ensures a == Reject(400, InvalidJson) <==> body == Malformed || body == Parsed(Null)
    ensures a.Reject? ==> a.status == 400 && (a.message == InvalidJson || a.message == NameRequired)
  {
    match body
    case Malformed => Reject(400, InvalidJson)
    case Parsed(v) =>
      match NameOf(v)
      case Throws => Reject(400, InvalidJson)
      case Found(name) =>
        if !NameAccepted(name) then Reject(400, NameRequired)
        else AppendItem(name.value.s)
  }

  /** The branch order of the callback: OPTIONS, GET /items, POST /items, 404. */
  function Decide(verb: string, path: string, body: BodyParse): (a: Action)
    ensures a == Preflight <==> verb == "OPTIONS"
    ensures a == ListItems <==> verb == "GET" && path == "/items"
    ensures verb == "POST" && path == "/items" ==> a == CreateDecision(body)
    ensures a.AppendItem? ==> verb == "POST" && path == "/items"
    ensures a == Reject(404, NotFound) <==>
      verb != "OPTIONS" && !(path == "/items" && (verb == "GET" || verb == "POST"))
  {
    if verb == "OPTIONS" then Preflight
    else if path == "/items" && verb == "GET" then ListItems
    else if path == "/items" && verb == "POST" then CreateDecision(body)
    else Reject(404, NotFound)
  }

  /** Only POST /items reads the body; every other decision ignores it. */
  lemma DecisionIgnoresBodyOffCreate(verb: string, path: string, b1: BodyParse, b2: BodyParse)
    requires !(verb == "POST" && path == "/items")
    ensures Decide(verb, path, b1) == Decide(verb, path, b2)
  {
  }

  /** An empty payload is `{}`: a missing name, not a JSON error. */
  lemma EmptyBodyIsValidationError(parse: string -> BodyParse)
    ensures CreateDecision(ParseBody(Complete(""), parse)) == Reject(400, NameRequired)
  {
  }

  /** A body that parses to `null` makes `body.name` throw: the JSON error. */
  lemma NullBodyIsInvalidJson()
    ensures CreateDecision(Parsed(Null)) == Reject(400, InvalidJson)
  {
  }

  /** A stream error or a failed parse is the JSON error. */
  lemma UnreadableBodyIsInvalidJson(received: Received, parse: string -> BodyParse)
    requires received == StreamFailed || (received.text != "" && parse(received.text) == Malformed)
    ensures CreateDecision(ParseBody(received, parse)) == Reject(400, InvalidJson)
  {
  }

  /** Primitive and array bodies have no `name`: the validation error. */
  lemma PrimitiveBodiesAreValidationErrors(v: JsonValue)
    requires v.Bool? || v.Num? || v.Str? || v.Arr?
    ensures CreateDecision(Parsed(v)) == Reject(400, NameRequired)
  {
  }

  /** An object whose name is missing, empty or not a string: the validation error. */
  lemma BadNameIsValidationError(name: Option<JsonValue>)
    requires name == None || name == Some(Str("")) || (name.Some? && !name.value.Str?)
    ensures CreateDecision(Parsed(Obj(name))) == Reject(400, NameRequired)
  {
  }
}
