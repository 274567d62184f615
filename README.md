# Item service: verified model of the store and the request dispatch

The system is a small Node HTTP server holding an ordered, in-memory list of
`{id, name}` items and a `nextId` counter. `GET /items` lists them, `POST /items`
appends one after validating its `name`, `OPTIONS` answers a CORS preflight on any
path, and everything else is 404. This project models that core in Dafny:

- `wrappers.dfy` (module `Wrappers`): the `Option` type.
- `body.dfy` (module `Body`): the request body as an abstract JSON value. It covers the
  outcome of `parseBody` (empty payload means `{}`, otherwise the parser's result,
  and a stream error rejects) and the property access `body.name`, which throws on `null`.
- `http.dfy` (module `Http`): items, response payloads, the fixed header sets of
  `sendJSON` and of the preflight answer.
- `dispatch.dfy` (module `Dispatch`): the pure decision the request callback makes from
  method, pathname and body outcome, in the source's branch order.
- `store.dfy` (module `Store`): the store as a value (`StoreState`), its invariant, the
  effect of one request (`Serve`) and of a sequence of requests (`Run`), and the class
  `ItemStore`. The class holds the mutable `items` and `nextId`. Its methods `Create`
  and `Handle` mutate them in place. `Handle` is proved against `Serve` on the old
  state. `Create` is proved against `Apply` of the create decision on the old state.

The store invariant is stated in `Store.Invariant`. Ids strictly increase in list
order, so they are unique. Every id is below `nextId`. Every name is non-empty.

Two behaviours of the code are easily missed, and the model keeps both:

- The OPTIONS answer carries only the three CORS headers. It has no `Content-Type`.
- The "Invalid JSON" message covers more than malformed text. It is also given when the
  body parses to `null`, where `body.name` throws inside the `try`, and when the request
  stream reports an error, which rejects `parseBody`.

## Model

| member | source | states |
|---|---|---|
| Body.ParseBody | server.js:13-28 | an empty payload resolves to `{}`; a non-empty one resolves to the parser's result; a stream error rejects |
| Body.NameOf | server.js:70 | `body.name` throws exactly when the body is `null`; an object yields its own `name` property; a present property can only come from an object |
| Dispatch.CreateDecision | server.js:66-85 | a create is accepted iff the body parsed to an object whose `name` is a non-empty string, and then it carries that name; the JSON error is given iff the parse failed or the body is `null`; every other outcome is the 400 validation error |
| Dispatch.Decide | server.js:48-90 | OPTIONS decides preflight on every path and is the only way to get it; list iff GET /items; POST /items is the create decision; only POST /items can append; 404 iff none of the three branches matches |
| Dispatch.DecisionIgnoresBodyOffCreate | server.js:58-67 | the body is consulted only for POST /items |
| Dispatch.EmptyBodyIsValidationError | server.js:21 | an empty payload gives the missing-name error, not the JSON error |
| Dispatch.NullBodyIsInvalidJson | server.js:83-84 | a `null` body gives the JSON error |
| Dispatch.UnreadableBodyIsInvalidJson | server.js:21-26 | a stream error or a failed parse gives the JSON error |
| Dispatch.PrimitiveBodiesAreValidationErrors | server.js:70-73 | booleans, numbers, strings and arrays as body give the validation error |
| Dispatch.BadNameIsValidationError | server.js:70-73 | a missing, empty or non-string `name` gives the validation error |
| Http.SendJson | server.js:31-39 | the given status and payload, with `Content-Type: application/json` and the three CORS headers |
| Http.PreflightResponse | server.js:49-54 | status 200, empty body, the three CORS headers and no `Content-Type` |
| Store.Apply | server.js:49-90 | the status is the decision's; only an append changes the state, by appending `{old nextId, name}` and bumping the counter; a list answer carries the whole list and a rejection carries its message; the invariant is kept when the appended name is non-empty; only the preflight lacks the JSON header set |
| Store.Serve | server.js:42-91 | one request keeps the invariant, answers 200, 201, 400 or 404, and changes nothing unless it answers 201; a 201 comes only from POST /items and returns the item with the old counter as id, which is appended while the counter advances by one |
| Store.RunPreservesInvariant | server.js:76-81 | every sequence of requests keeps the store invariant |
| Store.RunIssuesConsecutiveIds | server.js:76-81 | across any sequence of requests earlier items are unchanged, new items are appended with consecutive ids from the counter, and the counter advances by the number created |
| Store.SeedRunIdsArePositions | server.js:5-10 | from the seeded state the two seed items stay first, the item at position k has id k+1 (so creates issue 3, 4, 5, …), and `nextId` is one past the list length |
| Store.SeedInvariant | server.js:5-10 | the seeded state satisfies the invariant, with two items and `nextId` 3 |
| Store.IdsUnique | server.js:76-81 | under the invariant, distinct positions hold distinct ids |
| Store.OptionsIsPreflight | server.js:48-56 | OPTIONS on any path gives the preflight answer and leaves the store unchanged |
| Store.GetItemsListsAll | server.js:59-62 | GET /items gives 200 with the whole list in order and leaves the store unchanged |
| Store.OtherRoutesNotFound | server.js:90 | every other method/path pair gives 404 `Not Found` and leaves the store unchanged |
| Store.CreateAppends | server.js:76-82 | a valid name gives 201 with `{old nextId, name}`, which is appended, and the counter is incremented |
| Store.RejectedCreateChangesNothing | server.js:70-73 | a rejected POST /items answers 400 with the decision's error message and leaves items and counter unchanged |
| Store.ResponseHeaders | server.js:31-39 | OPTIONS answers carry the CORS headers and no `Content-Type`; every other answer carries both |
| Store.WidgetScenario | server.js:59-82 | list the seed, create "Widget" as id 3, then list three items ending in it |
| Store.ItemStore.constructor | server.js:5-10 | the store starts as the two seed items with `nextId` 3, satisfying the invariant |
| Store.ItemStore.List | server.js:59-60 | returns the current list |
| Store.ItemStore.Create | server.js:65-86 | in-place create agrees with `Apply` of the create decision; on 201 the counter is bumped and exactly the returned item is appended; on 400 nothing changes; the invariant is kept |
| Store.ItemStore.Handle | server.js:42-91 | the in-place handler agrees with `Serve` on response and new state, keeps the invariant, and mutates only when it answers 201 |

## Left out

- Network and process I/O are not modelled: `http.createServer`, `server.listen`, port 3000 and the startup log message (server.js:42, 93-96).
- The stream-event plumbing of `parseBody` (server.js:13-28) is left out. Only its outcome is modelled, as `Body.Received`.
- `JSON.parse` is not modelled. It is the `parse` parameter of `Body.ParseBody`, and JSON text has no model.
- `JSON.stringify` is not modelled. A response holds the structured payload, not text.
- `url.parse` is not modelled. The pathname is an input. A `null` pathname never equals `/items`, so any other string stands for it.
- A JSON object is reduced to its `name` property, and numbers carry no value. Nothing else about them affects the handler.
- `async`/`await` and the event loop are not modelled. Each request is one atomic step, as the mutation at server.js:77-81 runs in a single synchronous turn.
- `Store.Request` carries a body outcome for every request. The source reads the body only for POST /items. `Dispatch.DecisionIgnoresBodyOffCreate` shows the model ignores it elsewhere.
- Ids are unbounded naturals. The JavaScript number precision limit of 2^53 on `nextId` is not modelled.
