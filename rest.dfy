/**
 * The create, read, update and delete helpers of `Rack::Test::Rest`
 * (lib/rack-test-rest.rb).
 *
 * Each helper takes the caller's parameter hash, sends one request, and
 * checks the status. The reserved keys are `:code` (the status the caller
 * expects) and `:id`. Create removes `:code` from that very hash; read
 * removes `:code`, and `:id` when it is truthy; update removes both; delete
 * only reads them. The pure
 * functions below say what each helper sends, what it leaves in the
 * caller's hash, which statuses it accepts and what it answers; the methods
 * at the end do it step by step, on a `Hash` object, as the Ruby code does.
 */
module Rest {
  import opened Wrappers
  import opened RubyValues
  import opened Http

  /**
   * `@rack_test_rest`: the root URI (as interpolated text), the resource
   * (the configured object: it is interpolated into paths and also used as
   * the key of a page's records) and, optionally, the pattern create's
   * `Location` header must match (`=~`), given as the predicate the pattern
   * stands for.
   */
  datatype Config = Config(rootUri: string, resource: Value, location: Option<string -> bool>)

  const CodeKey: Key := Sym("code")
  const IdKey: Key := Sym("id")

  datatype Op = CreateOp | ReadOp | UpdateOp | DeleteOp

  /** Which assertion of the pagination sweep failed (one per `assert` line). */
  datatype PageCheck = Records | Found | Total | Length | Offset

  /** A failed minitest `assert`, or a Ruby error raised where one is checked. */
  datatype Failure =
    | WrongStatus(status: int)
    | LocationMismatch(location: Option<string>)
    | NotJson
    | PageMismatch(check: PageCheck)

  /** What a helper answers when all its assertions pass, or the one that failed first. */
  datatype Result<T> = Ok(value: T) | Failed(failure: Failure)

  /** The same for helpers whose answer is only that they passed. */
  datatype Outcome = Pass | Fail(failure: Failure)

  // ---------------------------------------------------------------------
  // Endpoints
  // ---------------------------------------------------------------------

  /** `resource_uri`: the root, a slash, and the resource's text. */
  function ResourceUri(c: Config): (u: string)
    ensures |u| == |c.rootUri| + 1 + |ToS(c.resource)|
    ensures u[..|c.rootUri|] == c.rootUri && u[|c.rootUri|] == '/' && u[|c.rootUri| + 1..] == ToS(c.resource)
  {
    c.rootUri + "/" + ToS(c.resource)
  }

  /** The collection endpoint, `"#{resource_uri}.json"`. */
  function CollectionUri(c: Config): (u: string)
    ensures |u| == |ResourceUri(c)| + 5
    ensures u[..|ResourceUri(c)|] == ResourceUri(c) && u[|ResourceUri(c)|..] == ".json"
  {
    ResourceUri(c) + ".json"
  }

  /**
   * The item endpoint, `"#{resource_uri}/#{id}.json"`; a missing id
   * interpolates as "". The id's text can be read back from it.
   */
  function ItemUri(c: Config, id: Value): (u: string)
    ensures |u| == |ResourceUri(c)| + 1 + |ToS(id)| + 5
    ensures ItemIdText(c, u) == Some(ToS(id))
  {
    var prefix := ResourceUri(c) + "/";
    var u := prefix + ToS(id) + ".json";
    assert u[..|prefix|] == prefix;
    assert u[|u| - 5..] == ".json";
    assert u[|prefix|..|u| - 5] == ToS(id);
    u
  }

  /** Recovers the interpolated id from an item endpoint, as a router matching `<resource_uri>/:id.json` would. */
  function ItemIdText(c: Config, uri: string): Option<string> {
    var prefix := ResourceUri(c) + "/";
    if |uri| >= |prefix| + 5 && uri[..|prefix|] == prefix && uri[|uri| - 5..] == ".json"
    then Some(uri[|prefix|..|uri| - 5])
    else None
  }

  /** Distinct integer ids never share an item endpoint. */
  lemma ItemUriDeterminesIntId(c: Config, i: int, j: int)
    requires ItemUri(c, Int(i)) == ItemUri(c, Int(j))
    ensures i == j
  {
    IntToTextRoundTrip(i);
    IntToTextRoundTrip(j);
  }

  /** The collection endpoint is never an item endpoint, whatever the id. */
  lemma CollectionUriIsNoItemUri(c: Config, id: Value)
    ensures CollectionUri(c) != ItemUri(c, id)
  {
    assert |ItemUri(c, id)| == |CollectionUri(c)| + 1 + |ToS(id)|;
  }

  // ---------------------------------------------------------------------
  // Accepted status
  // ---------------------------------------------------------------------

  /** The status each helper checks when the caller gives no truthy `:code`. */
  function DefaultStatus(op: Op): int {
    match op
    case CreateOp => 201
    case ReadOp => 200
    case UpdateOp => 204
    case DeleteOp => 204
  }

  /** The status check a helper performs: `status == code` with the caller's value, or the default. */
  datatype Expect = Given(code: Value) | Default(status: int)

  function Expectation(op: Op, params: map<Key, Value>): Expect {
    var code := Lookup(params, CodeKey);
    if Truthy(code) then Given(code) else Default(DefaultStatus(op))
  }

  /** `last_response.status == expected`: the status is an Integer, compared by value. */
  predicate Accepts(e: Expect, status: int) {
    match e
    case Given(code) => IntEquals(status, code)
    case Default(expected) => status == expected
  }

  /**
   * The statuses a helper lets through: at most one; the caller's Integer
   * `:code`, or any other numeric `:code` with a whole value; none for a
   * truthy standard `:code` that is not a number.
   */
  function AcceptedStatuses(op: Op, params: map<Key, Value>): (s: set<int>)
    ensures forall status :: status in s <==> Accepts(Expectation(op, params), status)
    ensures |s| <= 1
    ensures !Truthy(Lookup(params, CodeKey)) ==> s == {DefaultStatus(op)}
    ensures Lookup(params, CodeKey).Int? ==> s == {Lookup(params, CodeKey).i}
    ensures Lookup(params, CodeKey).Num? ==>
      var r := Lookup(params, CodeKey).r;
      s == if r == r.Floor as real then {r.Floor} else {}
    ensures Truthy(Lookup(params, CodeKey)) && !Lookup(params, CodeKey).Int? && !Lookup(params, CodeKey).Num? ==> s == {}
  {
    match Expectation(op, params)
    case Default(status) => {status}
    case Given(code) =>
      match code
      case Int(i) => {i}
      case Num(r, _) => if r == r.Floor as real then {r.Floor} else {}
      case _ => {}
  }

  // ---------------------------------------------------------------------
  // What each helper sends and leaves behind
  // ---------------------------------------------------------------------

  /**
   * One helper call before the response: the request it sends, the status
   * check it will make, and the caller's hash as the call leaves it.
   */
  datatype Plan = Plan(request: Request, expected: Expect, leftover: map<Key, Value>)

  /** `create_resource`: posts the caller's own hash, without `:code`, to the collection. */
  function CreatePlan(c: Config, params: map<Key, Value>): (p: Plan)
    ensures p.request == Request(Post, CollectionUri(c), p.leftover)
    ensures p.leftover.Keys == params.Keys - {CodeKey}
    ensures forall k :: k in p.leftover ==> p.leftover[k] == params[k]
    ensures p.expected == Expectation(CreateOp, params)
  {
    var left := params - {CodeKey};
    Plan(Request(Post, CollectionUri(c), left), Expectation(CreateOp, params), left)
  }

  /**
   * `read_resource`: with a truthy `:id`, gets that item and drops `:id`;
   * otherwise gets the collection and keeps `:id` (nil or false) among the
   * query parameters.
   */
  function ReadPlan(c: Config, params: map<Key, Value>): (p: Plan)
    ensures p.request.verb == Get && p.request.params == p.leftover
    ensures Truthy(Lookup(params, IdKey)) ==>
      p.request.uri == ItemUri(c, Lookup(params, IdKey)) && p.leftover.Keys == params.Keys - {CodeKey, IdKey}
    ensures !Truthy(Lookup(params, IdKey)) ==>
      p.request.uri == CollectionUri(c) && p.leftover.Keys == params.Keys - {CodeKey}
    ensures forall k :: k in p.leftover ==> p.leftover[k] == params[k]
    ensures p.expected == Expectation(ReadOp, params)
  {
    var id := Lookup(params, IdKey);
    var left := if Truthy(id) then params - {CodeKey, IdKey} else params - {CodeKey};
    var uri := if Truthy(id) then ItemUri(c, id) else CollectionUri(c);
    Plan(Request(Get, uri, left), Expectation(ReadOp, params), left)
  }

  /** `update_resource`: puts the rest of the hash to the item named by `:id`, present or not. */
  function UpdatePlan(c: Config, params: map<Key, Value>): (p: Plan)
    ensures p.request == Request(Put, ItemUri(c, Lookup(params, IdKey)), p.leftover)
    ensures p.leftover.Keys == params.Keys - {CodeKey, IdKey}
    ensures forall k :: k in p.leftover ==> p.leftover[k] == params[k]
    ensures p.expected == Expectation(UpdateOp, params)
  {
    var left := params - {CodeKey, IdKey};
    Plan(Request(Put, ItemUri(c, Lookup(params, IdKey)), left), Expectation(UpdateOp, params), left)
  }

  /** `delete_resource`: deletes the item named by `:id`, sends no parameters and leaves the hash alone. */
  function DeletePlan(c: Config, params: map<Key, Value>): (p: Plan)
    ensures p.request == Request(Delete, ItemUri(c, Lookup(params, IdKey)), map[])
    ensures p.leftover == params
    ensures p.expected == Expectation(DeleteOp, params)
  {
    Plan(Request(Delete, ItemUri(c, Lookup(params, IdKey)), map[]), Expectation(DeleteOp, params), params)
  }

  /** The plan of any of the four helpers. */
  function PlanOf(op: Op, c: Config, params: map<Key, Value>): Plan {
    match op
    case CreateOp => CreatePlan(c, params)
    case ReadOp => ReadPlan(c, params)
    case UpdateOp => UpdatePlan(c, params)
    case DeleteOp => DeletePlan(c, params)
  }

  /**
   * Across the helpers: `:code` is never sent, only reserved keys are ever
   * removed from the caller's hash, and every key that stays keeps its value.
   */
  lemma ReservedKeysOnly(op: Op, c: Config, params: map<Key, Value>, k: Key)
    ensures CodeKey !in PlanOf(op, c, params).request.params
    ensures k in params && k != CodeKey && k != IdKey ==> k in PlanOf(op, c, params).leftover
    ensures k in PlanOf(op, c, params).leftover ==> k in params && PlanOf(op, c, params).leftover[k] == params[k]
    ensures op != DeleteOp ==> PlanOf(op, c, params).request.params == PlanOf(op, c, params).leftover
  {
  }

  /** The endpoint is the item form exactly for a read with a truthy `:id`, an update or a delete. */
  lemma ItemEndpointExactly(op: Op, c: Config, params: map<Key, Value>)
    ensures PlanOf(op, c, params).request.uri == ItemUri(c, Lookup(params, IdKey))
        <==> op == UpdateOp || op == DeleteOp || (op == ReadOp && Truthy(Lookup(params, IdKey)))
  {
    CollectionUriIsNoItemUri(c, Lookup(params, IdKey));
  }

  // ---------------------------------------------------------------------
  // Checking the response
  // ---------------------------------------------------------------------

  /** `last_response.original_headers["Location"] =~ pattern`, when a pattern is configured. */
  predicate LocationAccepted(c: Config, location: Option<string>) {
    match c.location
    case None => true
    case Some(matches) => location.Some? && matches(location.value)
  }

  /**
   * `create_resource` after the post: the Location header is the answer on
   * both paths, and the pattern is checked only on the default path.
   */
  function CreateVerdict(c: Config, e: Expect, resp: Response): (r: Result<Option<string>>)
    ensures r.Ok? <==> Accepts(e, resp.status) && (e.Default? ==> LocationAccepted(c, resp.location))
    ensures r.Ok? ==> r.value == resp.location
    ensures !Accepts(e, resp.status) ==> r == Failed(WrongStatus(resp.status))
  {
    if !Accepts(e, resp.status) then Failed(WrongStatus(resp.status))
    else if e.Default? && !LocationAccepted(c, resp.location) then Failed(LocationMismatch(resp.location))
    else Ok(resp.location)
  }

  /**
   * `read_resource` after the get: `nil` when the caller gave a code, the
   * parsed body on the default path.
   */
  function ReadVerdict(e: Expect, resp: Response): (r: Result<Option<Json>>)
    ensures r.Ok? <==> Accepts(e, resp.status) && (e.Default? ==> resp.body.Some?)
    ensures r.Ok? && e.Given? ==> r.value == None
    ensures r.Ok? && e.Default? ==> r.value == resp.body
    ensures !Accepts(e, resp.status) ==> r == Failed(WrongStatus(resp.status))
  {
    if !Accepts(e, resp.status) then Failed(WrongStatus(resp.status))
    else if e.Given? then Ok(None)
    else if resp.body.None? then Failed(NotJson)
    else Ok(resp.body)
  }

  /** `update_resource` and `delete_resource` after the request: only the status is checked. */
  function StatusVerdict(e: Expect, resp: Response): (r: Outcome)
    ensures r.Pass? <==> Accepts(e, resp.status)
    ensures r.Fail? ==> r.failure == WrongStatus(resp.status)
  {
    if Accepts(e, resp.status) then Pass else Fail(WrongStatus(resp.status))
  }

  // ---------------------------------------------------------------------
  // The helpers, step by step
  // ---------------------------------------------------------------------
  //
  // `sent` is every request issued so far in the test; `app` answers the
  // next one. Each helper returns the extended list with its answer.

  method CreateResource(c: Config, app: App, sent: seq<Request>, params: Hash)
    returns (sent': seq<Request>, location: Result<Option<string>>)
    modifies params
    ensures var p := CreatePlan(c, old(params.entries));
      && params.entries == p.leftover
      && sent' == sent + [p.request]
      && location == CreateVerdict(c, p.expected, app(sent, p.request))
  {
    var expectedCode := params.Get(CodeKey);
    var _ := params.Delete(CodeKey);

    var request := Request(Post, CollectionUri(c), params.entries);
    var response := app(sent, request);
    sent' := sent + [request];

    if Truthy(expectedCode) {
      if !IntEquals(response.status, expectedCode) {
        return sent', Failed(WrongStatus(response.status));
      }
    } else {
      if response.status != 201 {
        return sent', Failed(WrongStatus(response.status));
      }
      if c.location.Some? {
        if !(response.location.Some? && c.location.value(response.location.value)) {
          return sent', Failed(LocationMismatch(response.location));
        }
      }
    }
    location := Ok(response.location);
  }

  method ReadResource(c: Config, app: App, sent: seq<Request>, params: Hash)
    returns (sent': seq<Request>, doc: Result<Option<Json>>)
    modifies params
    ensures var p := ReadPlan(c, old(params.entries));
      && params.entries == p.leftover
      && sent' == sent + [p.request]
      && doc == ReadVerdict(p.expected, app(sent, p.request))
  {
    var expectedCode := params.Get(CodeKey);
    var _ := params.Delete(CodeKey);

    var uri;
    if Truthy(params.Get(IdKey)) {
      var id := params.Get(IdKey);
      var _ := params.Delete(IdKey);
      uri := ItemUri(c, id);
    } else {
      uri := CollectionUri(c);
    }

    var request := Request(Get, uri, params.entries);
    var response := app(sent, request);
    sent' := sent + [request];

    if Truthy(expectedCode) {
      if !IntEquals(response.status, expectedCode) {
        return sent', Failed(WrongStatus(response.status));
      }
      return sent', Ok(None);
    } else {
      if response.status != 200 {
        return sent', Failed(WrongStatus(response.status));
      }
      match response.body
      case None => doc := Failed(NotJson);
      case Some(parsed) => doc := Ok(Some(parsed));
    }
  }

  method UpdateResource(c: Config, app: App, sent: seq<Request>, params: Hash)
    returns (sent': seq<Request>, outcome: Outcome)
    modifies params
    ensures var p := UpdatePlan(c, old(params.entries));
      && params.entries == p.leftover
      && sent' == sent + [p.request]
      && outcome == StatusVerdict(p.expected, app(sent, p.request))
  {
    var expectedCode := params.Get(CodeKey);
    var _ := params.Delete(CodeKey);

    var id := params.Get(IdKey);
    var _ := params.Delete(IdKey);

    var request := Request(Put, ItemUri(c, id), params.entries);
    var response := app(sent, request);
    sent' := sent + [request];

    if Truthy(expectedCode) {
      outcome := if IntEquals(response.status, expectedCode) then Pass else Fail(WrongStatus(response.status));
    } else {
      outcome := if response.status == 204 then Pass else Fail(WrongStatus(response.status));
    }
  }

  /** Reads the caller's hash and never changes it: there is no `modifies` clause. */
  method DeleteResource(c: Config, app: App, sent: seq<Request>, params: Hash)
    returns (sent': seq<Request>, outcome: Outcome)
    ensures var p := DeletePlan(c, params.entries);
      && sent' == sent + [p.request]
      && outcome == StatusVerdict(p.expected, app(sent, p.request))
  {
    var request := Request(Delete, ItemUri(c, params.Get(IdKey)), map[]);
    var response := app(sent, request);
    sent' := sent + [request];

    if Truthy(params.Get(CodeKey)) {
      outcome := if IntEquals(response.status, params.Get(CodeKey)) then Pass else Fail(WrongStatus(response.status));
    } else {
      outcome := if response.status == 204 then Pass else Fail(WrongStatus(response.status));
    }
  }
}
