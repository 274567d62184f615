/**
 * The in-memory item store and how one request changes it. StoreState and
 * Serve are the specification on values; ItemStore is the module-level
 * `items` array and `nextId` counter that the handler mutates in place.
 */
module Store {
  import opened Wrappers
  import opened Body
  import opened Http
  import opened Dispatch

  datatype StoreState = StoreState(items: seq<Item>, nextId: nat)

  /** The state at process start. */
  const Seed: StoreState :=
    StoreState([Item(1, "Sample Item 1"), Item(2, "Sample Item 2")], 3)

  /** Ids strictly increase in list order, hence no two items share one. */
  predicate IdsIncreasing(items: seq<Item>)
  {
    forall i, j :: 0 <= i < j < |items| ==> items[i].id < items[j].id
  }

  /** The store invariant: increasing ids, all below the counter, non-empty names. */
  predicate Invariant(s: StoreState)
  {
    IdsIncreasing(s.items)
    && (forall k :: 0 <= k < |s.items| ==> s.items[k].id < s.nextId)
    && (forall k :: 0 <= k < |s.items| ==> s.items[k].name != "")
  }

  /** A request as the handler sees it; `body` is what `parseBody` would yield. */
  datatype Request = Request(verb: string, path: string, body: BodyParse)

  datatype Served = Served(state: StoreState, response: Response)

  /** Carry out a dispatch decision against the store. */
  function Apply(s: StoreState, a: Action): (r: Served)
    ensures r.response.status == Status(a)
    ensures Invariant(s) && (a.AppendItem? ==> a.name != "") ==> Invariant(r.state)
    ensures !a.AppendItem? ==> r.state == s
    ensures a == ListItems ==> r.response.payload == ItemArray(s.items)
    ensures a.Reject? ==> r.response.payload == ErrorObject(a.message)
    ensures a.AppendItem? ==>
      r.response.payload == ItemObject(Item(s.nextId, a.name))
      && r.state == StoreState(s.items + [Item(s.nextId, a.name)], s.nextId + 1)
    ensures a == Preflight <==> r.response == PreflightResponse()
    ensures a != Preflight ==> r.response.headers == JsonHeaders
  {
    match a
    case Preflight => Served(s, PreflightResponse())
    case ListItems => Served(s, SendJson(200, ItemArray(s.items)))
    case AppendItem(name) =>
      var item := Item(s.nextId, name);
      Served(StoreState(s.items + [item], s.nextId + 1), SendJson(201, ItemObject(item)))
    case Reject(status, message) => Served(s, SendJson(status, ErrorObject(message)))
  }

  /** One request, handled atomically. */
  function Serve(s: StoreState, req: Request): (r: Served)
    ensures Invariant(s) ==> Invariant(r.state)
    ensures r.response.status in {200, 201, 400, 404}
    ensures r.response.status != 201 ==> r.state == s
    ensures r.response.status == 201 ==>
      req.verb == "POST" && req.path == "/items"
      && r.response.payload.ItemObject?
      && r.response.payload.item.id == s.nextId
      && r.state == StoreState(s.items + [r.response.payload.item], s.nextId + 1)
  {
    Apply(s, Decide(req.verb, req.path, req.body))
  }

  /** A sequence of requests, handled one after another. */
  function Run(s: StoreState, reqs: seq<Request>): (r: StoreState)
    decreases |reqs|
  {
    if reqs == [] then s else Run(Serve(s, reqs[0]).state, reqs[1..])
  }

  /** Every run preserves the store invariant. */
  lemma {:induction false} RunPreservesInvariant(s: StoreState, reqs: seq<Request>)
    requires Invariant(s)
    ensures Invariant(Run(s, reqs))
    decreases |reqs|
  {
    if reqs != [] {
      RunPreservesInvariant(Serve(s, reqs[0]).state, reqs[1..]);
    }
  }

  /**
   * A run keeps the earlier items as they were, appends the new ones at the
   * end, issues their ids consecutively from the counter, and advances the
   * counter by exactly the number of items created.
   */
  lemma {:induction false} RunIssuesConsecutiveIds(s: StoreState, reqs: seq<Request>)
    ensures |s.items| <= |Run(s, reqs).items|
    ensures Run(s, reqs).items[..|s.items|] == s.items
    ensures Run(s, reqs).nextId == s.nextId + (|Run(s, reqs).items| - |s.items|)
    ensures forall k :: |s.items| <= k < |Run(s, reqs).items| ==>
      Run(s, reqs).items[k].id == s.nextId + (k - |s.items|)
    decreases |reqs|
  {
    if reqs != [] {
      var s' := Serve(s, reqs[0]).state;
      RunIssuesConsecutiveIds(s', reqs[1..]);
      var t := Run(s, reqs);
      assert t == Run(s', reqs[1..]);
      if s' != s {
        assert s'.items == s.items + [s'.items[|s.items|]];
        assert s'.items[|s.items|].id == s.nextId;
        assert t.items[..|s'.items|] == s'.items;
        assert t.items[..|s.items|] == s'.items[..|s.items|];
      }
    }
  }

  /** From the initial state, the item at position k always has id k + 1: 1, 2, then 3, 4, 5, … */
  lemma SeedRunIdsArePositions(reqs: seq<Request>)
    ensures |Run(Seed, reqs).items| >= 2
    ensures Run(Seed, reqs).items[..2] == Seed.items
    ensures Run(Seed, reqs).nextId == |Run(Seed, reqs).items| + 1
    ensures forall k :: 0 <= k < |Run(Seed, reqs).items| ==> Run(Seed, reqs).items[k].id == k + 1
  {
    RunIssuesConsecutiveIds(Seed, reqs);
    var t := Run(Seed, reqs);
    forall k | 0 <= k < 2 ensures t.items[k].id == k + 1 {
      assert t.items[k] == t.items[..2][k];
    }
  }

  /** The initial state satisfies the invariant. */
  lemma SeedInvariant()
    ensures Invariant(Seed)
    ensures Seed.nextId == 3 && |Seed.items| == 2
  {
  }

  /** Distinct positions hold distinct ids. */
  lemma IdsUnique(s: StoreState, i: nat, j: nat)
    requires Invariant(s)
    requires i < |s.items| && j < |s.items| && i != j
    ensures s.items[i].id != s.items[j].id
  {
  }

  /** OPTIONS on any path: 200, CORS headers only, no body, store untouched. */
  lemma OptionsIsPreflight(s: StoreState, path: string, body: BodyParse)
    ensures Serve(s, Request("OPTIONS", path, body)) == Served(s, PreflightResponse())
  {
  }

  /** GET /items: the whole list in insertion order, store untouched. */
  lemma GetItemsListsAll(s: StoreState, body: BodyParse)
    ensures Serve(s, Request("GET", "/items", body)) ==
      Served(s, Response(200, JsonHeaders, ItemArray(s.items)))
  {
  }

  /** Any other method/path pair: 404 Not Found, store untouched. */
  lemma OtherRoutesNotFound(s: StoreState, req: Request)
    requires req.verb != "OPTIONS"
    requires !(req.path == "/items" && (req.verb == "GET" || req.verb == "POST"))
    ensures Serve(s, req) == Served(s, Response(404, JsonHeaders, ErrorObject(NotFound)))
  {
  }

  /** A successful create returns the new item and appends exactly it. */
  lemma CreateAppends(s: StoreState, name: string)
    requires name != ""
    ensures Serve(s, Request("POST", "/items", Parsed(Obj(Some(Str(name)))))) ==
      Served(StoreState(s.items + [Item(s.nextId, name)], s.nextId + 1),
             Response(201, JsonHeaders, ItemObject(Item(s.nextId, name))))
  {
  }

  /** A rejected create answers 400 and leaves items and counter unchanged. */
  lemma RejectedCreateChangesNothing(s: StoreState, body: BodyParse)
    requires !CreateDecision(body).AppendItem?
    ensures Serve(s, Request("POST", "/items", body)).state == s
    ensures Serve(s, Request("POST", "/items", body)).response.status == 400
    ensures Serve(s, Request("POST", "/items", body)).response.payload ==
      ErrorObject(CreateDecision(body).message)
  {
  }

  /**
   * Headers: OPTIONS answers carry only the CORS headers; every other
   * answer goes through `sendJSON` and carries Content-Type as well.
   */
  lemma ResponseHeaders(s: StoreState, req: Request)
    ensures req.verb == "OPTIONS" ==>
      HasCors(Serve(s, req).response) && !HasHeader(Serve(s, req).response, "Content-Type")
    ensures req.verb != "OPTIONS" ==>
      HasCors(Serve(s, req).response)
      && Header("Content-Type", "application/json") in Serve(s, req).response.headers
  {
    var r := Serve(s, req).response;
    if req.verb != "OPTIONS" {
      assert r.headers == JsonHeaders;
      assert JsonHeaders[0] == Header("Content-Type", "application/json");
    } else {
      assert r == PreflightResponse();
    }
  }

  /** Start, GET, POST {"name":"Widget"}, GET: the third item is the 201 answer. */
  lemma WidgetScenario(parse: string -> BodyParse, b: BodyParse)
    requires parse("{\"name\":\"Widget\"}") == Parsed(Obj(Some(Str("Widget"))))
    ensures Serve(Seed, Request("GET", "/items", b)).response.payload == ItemArray(Seed.items)
    ensures
      var post := Serve(Seed, Request("POST", "/items", ParseBody(Complete("{\"name\":\"Widget\"}"), parse)));
      post.response.status == 201
      && post.response.payload == ItemObject(Item(3, "Widget"))
      && Serve(post.state, Request("GET", "/items", b)).response.payload ==
         ItemArray([Item(1, "Sample Item 1"), Item(2, "Sample Item 2"), Item(3, "Widget")])
  {
  }

  /** The module-level `items` and `nextId` of the server. */
  class ItemStore {
    var items: seq<Item>
    var nextId: nat

    function Snapshot(): StoreState
      reads this
    {
      StoreState(items, nextId)
    }

    ghost predicate Valid()
      reads this
    {
      Invariant(Snapshot())
    }

    /** The seeded store. */
    constructor ()
      ensures Snapshot() == Seed
      ensures Valid()
    {
      items := [Item(1, "Sample Item 1"), Item(2, "Sample Item 2")];
      nextId := 3;
    }

    /** GET /items reads the list as it stands. */
    method List() returns (r: seq<Item>)
      ensures r == items
    {
      r := items;
    }

    /** The POST /items branch: validate, then `nextId++` and `items.push`. */
    method Create(body: BodyParse) returns (resp: Response)
      requires Valid()
      modifies this
      ensures Valid()
      ensures Served(Snapshot(), resp) == Apply(old(Snapshot()), CreateDecision(body))
      ensures resp.status == 201 || resp.status == 400
      ensures resp.status == 201 ==>
        resp.payload == ItemObject(Item(old(nextId), CreateDecision(body).name))
        && items == old(items) + [resp.payload.item]
        && nextId == old(nextId) + 1
      ensures resp.status == 400 ==> items == old(items) && nextId == old(nextId)
    {
      match body
      case Malformed =>
        resp := SendJson(400, ErrorObject(InvalidJson));
      case Parsed(v) =>
        match NameOf(v)
        case Throws =>
          resp := SendJson(400, ErrorObject(InvalidJson));
        case Found(name) =>
          if !NameAccepted(name) {
            resp := SendJson(400, ErrorObject(NameRequired));
          } else {
            var item := Item(nextId, name.value.s);
            nextId := nextId + 1;
            items := items + [item];
            resp := SendJson(201, ItemObject(item));
          }
    }

    /** The request callback: branch on method and path in the source's order. */
    method Handle(verb: string, path: string, body: BodyParse) returns (resp: Response)
      requires Valid()
      modifies this
      ensures Valid()
      ensures Served(Snapshot(), resp) == Serve(old(Snapshot()), Request(verb, path, body))
      ensures resp.status != 201 ==> items == old(items) && nextId == old(nextId)
    {
      if verb == "OPTIONS" {
        resp := PreflightResponse();
        return;
      }
      if path == "/items" && verb == "GET" {
        var all := List();
        resp := SendJson(200, ItemArray(all));
        return;
      }
      if path == "/items" && verb == "POST" {
        resp := Create(body);
        return;
      }
      resp := SendJson(404, ErrorObject(NotFound));
    }
  }
}
