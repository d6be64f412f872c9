/**
 * `paginate_resource` (lib/rack-test-rest.rb:91-130): create `count`
 * resources from the caller's block, then read the collection back in
 * windows of random length, checking the bookkeeping each page reports.
 *
 * `rand(max - 1)` is replaced by `rolls`, the value it yields in each round;
 * the windows that a choice of rolls produces are a pure function of
 * `count` and the rolls, and the sweep's checks are stated against them.
 */
module Pagination {
  import opened Wrappers
  import opened RubyValues
  import opened Http
  import opened Rest

  const CountKey: Key := Sym("count")
  const MaxLengthKey: Key := Sym("max_length")
  const OffsetKey: Key := Sym("offset")
  const LengthKey: Key := Sym("length")

  const DefaultCount: int := 512
  const DefaultMaxLength: int := 100

  /** An option the sweep does arithmetic on: unset, `nil`/`false`, or an Integer. */
  predicate IntegerOption(opts: map<Key, Value>, key: Key) {
    var v := Lookup(opts, key);
    !Truthy(v) || v.Int?
  }

  /** `opts[key] ? opts[key] : default` */
  function OptionOr(opts: map<Key, Value>, key: Key, default: int): int
    requires IntegerOption(opts, key)
  {
    var v := Lookup(opts, key);
    if Truthy(v) then v.i else default
  }

  /** `params[:count] ? params[:count] : 512`: an Integer count, even 0, is taken as given. */
  function CountOption(opts: map<Key, Value>): (n: int)
    requires IntegerOption(opts, CountKey)
    ensures Truthy(Lookup(opts, CountKey)) ==> n == Lookup(opts, CountKey).i
    ensures !Truthy(Lookup(opts, CountKey)) ==> n == 512
  {
    OptionOr(opts, CountKey, DefaultCount)
  }

  /** `params[:max_length] ? params[:max_length] : 100`: an Integer length, even 0, is taken as given. */
  function MaxLengthOption(opts: map<Key, Value>): (n: int)
    requires IntegerOption(opts, MaxLengthKey)
    ensures Truthy(Lookup(opts, MaxLengthKey)) ==> n == Lookup(opts, MaxLengthKey).i
    ensures !Truthy(Lookup(opts, MaxLengthKey)) ==> n == 100
  {
    OptionOr(opts, MaxLengthKey, DefaultMaxLength)
  }

  // ---------------------------------------------------------------------
  // The windows a sweep requests
  // ---------------------------------------------------------------------

  /** `rand(max - 1)` yields an Integer in [0, max - 2]; `rolls(round)` is the one drawn in each round. */
  ghost predicate RandomDraws(rolls: nat -> int, max: int) {
    forall round: nat :: 0 <= rolls(round) < max - 1
  }

  /** `rand(max - 1) + 1` */
  function RequestedLength(roll: int): int {
    roll + 1
  }

  /** The lengths a round can request are exactly 1 to max - 1: `max_length` itself is never asked for. */
  lemma RequestedLengthRange(max: int, length: int)
    requires max >= 2
    ensures (exists roll :: 0 <= roll < max - 1 && RequestedLength(roll) == length) <==> 1 <= length <= max - 1
  {
    if 1 <= length <= max - 1 {
      assert RequestedLength(length - 1) == length;
    }
  }

  /** `(length > (count - retrieved)) ? (count - retrieved) : length` */
  function ExpectedLength(length: int, remaining: int): (r: int)
    ensures r <= length && r <= remaining && (r == length || r == remaining)
  {
    if length > remaining then remaining else length
  }

  /** One round: the offset asked for, the length asked for, and the number of records expected back. */
  datatype Window = Window(offset: int, length: int, expected: int)

  /** The windows of the rounds from `round` on, when `retrieved` records have been read. */
  function Windows(count: int, rolls: nat -> int, max: int, retrieved: int, round: nat): seq<Window>
    requires RandomDraws(rolls, max)
    decreases count - retrieved
  {
    if retrieved >= count then []
    else
      var length := RequestedLength(rolls(round));
      var expected := ExpectedLength(length, count - retrieved);
      [Window(retrieved, length, expected)] + Windows(count, rolls, max, retrieved + expected, round + 1)
  }

  /** The first window of a non-empty run and the windows after it. */
  lemma WindowsHead(count: int, rolls: nat -> int, max: int, retrieved: int, round: nat)
    requires RandomDraws(rolls, max) && retrieved < count
    ensures var ws := Windows(count, rolls, max, retrieved, round);
      var length := RequestedLength(rolls(round));
      var expected := ExpectedLength(length, count - retrieved);
      && ws != []
      && ws[0] == Window(retrieved, length, expected)
      && ws[1..] == Windows(count, rolls, max, retrieved + expected, round + 1)
  {
  }

  /** The records the windows expect in all. */
  function Expected(ws: seq<Window>): int {
    if ws == [] then 0 else ws[0].expected + Expected(ws[1..])
  }

  /** The windows start where reading starts, end at `count`, and expect `count - retrieved` records in all. */
  lemma {:induction false} WindowsTile(count: int, rolls: nat -> int, max: int, retrieved: int, round: nat)
    requires RandomDraws(rolls, max)
    requires 0 <= retrieved <= count
    ensures var ws := Windows(count, rolls, max, retrieved, round);
      && Expected(ws) == count - retrieved
      && |ws| <= count - retrieved
      && (ws == [] <==> retrieved == count)
      && (ws != [] ==> ws[0].offset == retrieved && ws[|ws| - 1].offset + ws[|ws| - 1].expected == count)
    decreases count - retrieved
  {
    if retrieved < count {
      var ws := Windows(count, rolls, max, retrieved, round);
      WindowsHead(count, rolls, max, retrieved, round);
      var rest := ws[1..];
      WindowsTile(count, rolls, max, retrieved + ws[0].expected, round + 1);
      if rest != [] {
        assert ws[|ws| - 1] == rest[|rest| - 1];
      }
    }
  }

  /** Each window starts where the one before it ends: no gap, no overlap. */
  lemma {:induction false} WindowsAdjacent(count: int, rolls: nat -> int, max: int, retrieved: int, round: nat)
    requires RandomDraws(rolls, max)
    ensures var ws := Windows(count, rolls, max, retrieved, round);
      forall k :: 0 <= k < |ws| - 1 ==> ws[k + 1].offset == ws[k].offset + ws[k].expected
    decreases count - retrieved
  {
    if retrieved < count {
      var ws := Windows(count, rolls, max, retrieved, round);
      WindowsHead(count, rolls, max, retrieved, round);
      var rest := ws[1..];
      WindowsAdjacent(count, rolls, max, retrieved + ws[0].expected, round + 1);
      if rest != [] {
        assert ws[1].offset == retrieved + ws[0].expected;
      }
      forall k | 0 <= k < |ws| - 1
        ensures ws[k + 1].offset == ws[k].offset + ws[k].expected
      {
        if k > 0 {
          assert ws[k] == rest[k - 1] && ws[k + 1] == rest[k];
        }
      }
    }
  }

  /** Round `k` asks for 1 to max - 1 records and expects that many, or what remains if fewer: never none, never more than remain. */
  lemma {:induction false} WindowAt(count: int, rolls: nat -> int, max: int, retrieved: int, round: nat, k: nat)
    requires RandomDraws(rolls, max)
    requires k < |Windows(count, rolls, max, retrieved, round)|
    ensures var w := Windows(count, rolls, max, retrieved, round)[k];
      && w.length == RequestedLength(rolls(round + k))
      && 1 <= w.length <= max - 1
      && w.expected == ExpectedLength(w.length, count - w.offset)
      && 1 <= w.expected <= count - w.offset
      && retrieved <= w.offset
    decreases k
  {
    var ws := Windows(count, rolls, max, retrieved, round);
    var length := RequestedLength(rolls(round));
    var expected := ExpectedLength(length, count - retrieved);
    var rest := Windows(count, rolls, max, retrieved + expected, round + 1);
    assert ws == [Window(retrieved, length, expected)] + rest;
    if k > 0 {
      WindowAt(count, rolls, max, retrieved + expected, round + 1, k - 1);
      assert ws[k] == rest[k - 1];
      assert round + k == (round + 1) + (k - 1);
    }
  }

  /** The bounds of `WindowAt`, for every round of a sweep. */
  lemma WindowBounds(count: int, rolls: nat -> int, max: int)
    requires RandomDraws(rolls, max)
    ensures var ws := Windows(count, rolls, max, 0, 0);
      forall k :: 0 <= k < |ws| ==>
        && ws[k].length == RequestedLength(rolls(k))
        && 1 <= ws[k].length <= max - 1
        && ws[k].expected == ExpectedLength(ws[k].length, count - ws[k].offset)
        && 1 <= ws[k].expected <= count - ws[k].offset
  {
    var ws := Windows(count, rolls, max, 0, 0);
    forall k | 0 <= k < |ws|
      ensures && ws[k].length == RequestedLength(rolls(k))
              && 1 <= ws[k].length <= max - 1
              && ws[k].expected == ExpectedLength(ws[k].length, count - ws[k].offset)
              && 1 <= ws[k].expected <= count - ws[k].offset
    {
      WindowAt(count, rolls, max, 0, 0, k);
    }
  }

  predicate Covers(w: Window, item: int) {
    w.offset <= item < w.offset + w.expected
  }

  /** Every record from `retrieved` up to `count` lies in exactly one window: each is read once. */
  lemma {:induction false} WindowsPartition(count: int, rolls: nat -> int, max: int, retrieved: int, round: nat, item: int)
    requires RandomDraws(rolls, max)
    requires 0 <= retrieved <= item < count
    ensures var ws := Windows(count, rolls, max, retrieved, round);
      && (exists k :: 0 <= k < |ws| && Covers(ws[k], item))
      && (forall k, j :: 0 <= k < |ws| && 0 <= j < |ws| && Covers(ws[k], item) && Covers(ws[j], item) ==> k == j)
    decreases count - retrieved
  {
    var ws := Windows(count, rolls, max, retrieved, round);
    var length := RequestedLength(rolls(round));
    var expected := ExpectedLength(length, count - retrieved);
    var rest := Windows(count, rolls, max, retrieved + expected, round + 1);
    assert ws == [Window(retrieved, length, expected)] + rest;
    // no later window reaches back into the first one
    forall k | 1 <= k < |ws|
      ensures ws[k] == rest[k - 1] && retrieved + expected <= ws[k].offset
    {
      WindowAt(count, rolls, max, retrieved + expected, round + 1, k - 1);
    }
    if item < retrieved + expected {
      assert Covers(ws[0], item);
      assert Windows(count, rolls, max, retrieved, round) == ws;
    } else {
      WindowsPartition(count, rolls, max, retrieved + expected, round + 1, item);
      var k :| 0 <= k < |rest| && Covers(rest[k], item);
      assert Covers(ws[k + 1], item);
      forall k, j | 0 <= k < |ws| && 0 <= j < |ws| && Covers(ws[k], item) && Covers(ws[j], item)
        ensures k == j
      {
        assert Covers(rest[k - 1], item) && Covers(rest[j - 1], item);
      }
    }
  }

  // ---------------------------------------------------------------------
  // What a page must report
  // ---------------------------------------------------------------------

  /** `pg_resp["query"][name]` */
  function QueryValue(doc: Json, name: string): Option<Json> {
    match Field(doc, "query")
    case None => None
    case Some(query) => Field(query, name)
  }

  /**
   * `pg_resp[resource].count`: the number of records a page holds under the
   * configured resource. JSON keys are Strings, so any other standard
   * configured resource is taken to find `nil`, and the count raises.
   */
  function RecordCount(c: Config, doc: Json): (n: Option<int>)
    ensures !c.resource.Str? ==> n == None
  {
    match c.resource
    case Str(name) => (
      match Field(doc, name)
      case None => None
      case Some(records) => Count(records))
    case _ => None
  }

  /** Everything the sweep asserts of one page. */
  predicate PageAgrees(c: Config, count: int, w: Window, doc: Json) {
    && RecordCount(c, doc) == Some(w.expected)
    && QueryValue(doc, "found") == Some(JNum(count))
    && QueryValue(doc, "total") == Some(JNum(count))
    && QueryValue(doc, "length") == Some(JNum(w.expected))
    && QueryValue(doc, "offset") == Some(JNum(w.offset))
  }

  /** The asserts of one round (lines 118-125), in order; the first that fails is reported. */
  function CheckPage(c: Config, count: int, w: Window, page: Option<Json>): (r: Outcome)
    ensures r.Pass? <==> page.Some? && PageAgrees(c, count, w, page.value)
    ensures r.Fail? ==> r.failure.PageMismatch?
    ensures page.Some? && RecordCount(c, page.value) != Some(w.expected) ==> r == Fail(PageMismatch(Records))
  {
    if page.None? || RecordCount(c, page.value) != Some(w.expected) then Fail(PageMismatch(Records))
    else if QueryValue(page.value, "found") != Some(JNum(count)) then Fail(PageMismatch(Found))
    else if QueryValue(page.value, "total") != Some(JNum(count)) then Fail(PageMismatch(Total))
    else if QueryValue(page.value, "length") != Some(JNum(w.expected)) then Fail(PageMismatch(Length))
    else if QueryValue(page.value, "offset") != Some(JNum(w.offset)) then Fail(PageMismatch(Offset))
    else Pass
  }

  // ---------------------------------------------------------------------
  // The requests of a sweep
  // ---------------------------------------------------------------------

  /** `read_resource(:offset => offset, :length => length)` */
  function PageParams(w: Window): map<Key, Value> {
    map[OffsetKey := Int(w.offset), LengthKey := Int(w.length)]
  }

  /** A page read gets the collection with exactly the offset and the requested length, expects 200 and leaves its hash as it was. */
  lemma PageReadPlan(c: Config, w: Window)
    ensures ReadPlan(c, PageParams(w)) == Plan(PageRequest(c, w), Default(200), PageParams(w))
  {
    assert Lookup(PageParams(w), IdKey) == Nil;
    assert Lookup(PageParams(w), CodeKey) == Nil;
    assert PageParams(w) - {CodeKey} == PageParams(w);
  }

  /** The request one round sends. */
  function PageRequest(c: Config, w: Window): Request {
    Request(Get, CollectionUri(c), PageParams(w))
  }

  function PageRequests(c: Config, ws: seq<Window>): (rs: seq<Request>)
    ensures |rs| == |ws|
  {
    seq(|ws|, k requires 0 <= k < |ws| => PageRequest(c, ws[k]))
  }

  lemma PageRequestsPrefix(c: Config, ws: seq<Window>, k: nat)
    requires 1 <= k <= |ws|
    ensures PageRequests(c, ws)[..k] == [PageRequest(c, ws[0])] + PageRequests(c, ws[1..])[..k - 1]
  {
    var a := PageRequests(c, ws)[..k];
    var b := [PageRequest(c, ws[0])] + PageRequests(c, ws[1..])[..k - 1];
    forall i | 0 <= i < k
      ensures a[i] == b[i]
    {
      if i > 0 {
        assert b[i] == PageRequests(c, ws[1..])[i - 1];
      }
    }
  }

  /** The posts of `build(id)` to `build(id + n - 1)`, in order. */
  function CreateRequests(c: Config, build: nat -> map<Key, Value>, id: nat, n: nat): (rs: seq<Request>)
    ensures |rs| == n
    decreases n
  {
    if n == 0 then [] else [CreatePlan(c, build(id)).request] + CreateRequests(c, build, id + 1, n - 1)
  }

  /** The `k`-th post is that of `build(id + k)`. */
  lemma {:induction false} CreateRequestsAt(c: Config, build: nat -> map<Key, Value>, id: nat, n: nat, k: nat)
    requires k < n
    ensures CreateRequests(c, build, id, n)[k] == CreatePlan(c, build(id + k)).request
    decreases n
  {
    if k > 0 {
      CreateRequestsAt(c, build, id + 1, n - 1, k - 1);
    }
  }

  /** One round passes: given what was sent before, the page answers 200 and agrees with the window. */
  predicate PagePasses(c: Config, app: App, before: seq<Request>, count: int, w: Window) {
    var response := app(before, PageRequest(c, w));
    response.status == 200 && response.body.Some? && PageAgrees(c, count, w, response.body.value)
  }

  /** Where a stretch of the test ends: every request sent so far, and whether its assertions all passed. */
  datatype Run = Run(sent: seq<Request>, outcome: Outcome)

  /** `0.upto(count - 1) { |id| create_resource(yield(id)) }`, stopping at the first failure. */
  function Populate(c: Config, app: App, sent: seq<Request>, build: nat -> map<Key, Value>, id: nat, count: int): Run
    decreases count - id
  {
    if id > count - 1 then Run(sent, Pass)
    else
      var p := CreatePlan(c, build(id));
      var next := sent + [p.request];
      match CreateVerdict(c, p.expected, app(sent, p.request))
      case Failed(f) => Run(next, Fail(f))
      case Ok(_) => Populate(c, app, next, build, id + 1, count)
  }

  /**
   * The verdict of one round (lines 115-125): the read of the window's page,
   * whose plan `PageReadPlan` gives, then the checks of that page.
   */
  function PageRound(c: Config, app: App, before: seq<Request>, count: int, w: Window): (r: Outcome)
    ensures r.Pass? <==> PagePasses(c, app, before, count, w)
  {
    match ReadVerdict(Default(200), app(before, PageRequest(c, w)))
    case Failed(f) => Fail(f)
    case Ok(page) => CheckPage(c, count, w, page)
  }

  /** The read loop over the given windows, stopping at the first failure. */
  function Sweep(c: Config, app: App, sent: seq<Request>, count: int, ws: seq<Window>): Run
    decreases |ws|
  {
    if ws == [] then Run(sent, Pass)
    else
      var next := sent + [PageRequest(c, ws[0])];
      var round := PageRound(c, app, sent, count, ws[0]);
      if round.Fail? then Run(next, round) else Sweep(c, app, next, count, ws[1..])
  }

  /** The whole of `paginate_resource`. */
  function Paginate(c: Config, app: App, sent: seq<Request>, opts: map<Key, Value>,
                    build: nat -> map<Key, Value>, rolls: nat -> int): Run
    requires IntegerOption(opts, CountKey) && IntegerOption(opts, MaxLengthKey)
    requires RandomDraws(rolls, MaxLengthOption(opts))
  {
    var count := CountOption(opts);
    var populated := Populate(c, app, sent, build, 0, count);
    if populated.outcome.Fail? then populated
    else Sweep(c, app, populated.sent, count, Windows(count, rolls, MaxLengthOption(opts), 0, 0))
  }

  /** Populating posts `build(id)`, `build(id + 1)`, ... in order: a prefix of them, and all `count - id` when it passes. */
  lemma {:induction false} PopulateTrace(c: Config, app: App, sent: seq<Request>, build: nat -> map<Key, Value>, id: nat, count: int)
    ensures var r := Populate(c, app, sent, build, id, count);
      var n := if count > id then count - id else 0;
      && |sent| <= |r.sent| <= |sent| + n
      && r.sent == sent + CreateRequests(c, build, id, |r.sent| - |sent|)
      && (r.outcome.Pass? ==> |r.sent| == |sent| + n)
      && (r.outcome.Fail? ==> |r.sent| > |sent|)
    decreases count - id
  {
    if id <= count - 1 {
      var p := CreatePlan(c, build(id));
      var next := sent + [p.request];
      if CreateVerdict(c, p.expected, app(sent, p.request)).Ok? {
        PopulateTrace(c, app, next, build, id + 1, count);
        var r := Populate(c, app, next, build, id + 1, count);
        var m := |r.sent| - |next|;
        assert r.sent == next + CreateRequests(c, build, id + 1, m);
        assert [p.request] + CreateRequests(c, build, id + 1, m) == CreateRequests(c, build, id, m + 1);
      } else {
        assert [p.request] == CreateRequests(c, build, id, 1);
      }
    }
  }

  /** One create passes: given what was sent before, the post of `params` is answered as `create_resource` asserts. */
  predicate CreatePasses(c: Config, app: App, before: seq<Request>, params: map<Key, Value>) {
    var p := CreatePlan(c, params);
    CreateVerdict(c, p.expected, app(before, p.request)).Ok?
  }

  /** One create of the populating loop: a passing one goes on to the next id, a failing one ends the run. */
  lemma PopulateRound(c: Config, app: App, sent: seq<Request>, build: nat -> map<Key, Value>, id: nat, count: int)
    requires id <= count - 1
    ensures var next := sent + [CreatePlan(c, build(id)).request];
      var r := Populate(c, app, sent, build, id, count);
      && (CreatePasses(c, app, sent, build(id)) ==> r == Populate(c, app, next, build, id + 1, count))
      && (!CreatePasses(c, app, sent, build(id)) ==> r.sent == next && r.outcome.Fail?)
  {
  }

  /** The log just before the create of `build(j)`, when populating began at `id` after `sent`. */
  function LogBefore(c: Config, build: nat -> map<Key, Value>, sent: seq<Request>, id: nat, j: nat): seq<Request>
    requires id <= j
  {
    sent + CreateRequests(c, build, id, j - id)
  }

  /** The log before each create is the same whether the run is seen from `id` or from the next id. */
  lemma LogBeforeStep(c: Config, build: nat -> map<Key, Value>, sent: seq<Request>, id: nat, j: nat)
    requires id < j
    ensures LogBefore(c, build, sent, id, j) == LogBefore(c, build, sent + [CreatePlan(c, build(id)).request], id + 1, j)
  {
    assert j - id == (j - (id + 1)) + 1;
  }

  /** Every create of ids `id` to `count - 1` passes, each given the requests sent before it. */
  predicate CreatesPass(c: Config, app: App, sent: seq<Request>, build: nat -> map<Key, Value>, id: nat, count: int) {
    forall j: nat :: id <= j < count ==> CreatePasses(c, app, LogBefore(c, build, sent, id, j), build(j))
  }

  /** Populating passes exactly when every create does, each given the requests sent before it. */
  lemma {:induction false} PopulateAllPass(c: Config, app: App, sent: seq<Request>, build: nat -> map<Key, Value>, id: nat, count: int)
    ensures Populate(c, app, sent, build, id, count).outcome.Pass? <==> CreatesPass(c, app, sent, build, id, count)
    decreases count - id
  {
    if id <= count - 1 {
      var next := sent + [CreatePlan(c, build(id)).request];
      PopulateRound(c, app, sent, build, id, count);
      assert LogBefore(c, build, sent, id, id) == sent;
      if CreatePasses(c, app, sent, build(id)) {
        PopulateAllPass(c, app, next, build, id + 1, count);
        forall j: nat | id + 1 <= j < count
          ensures LogBefore(c, build, sent, id, j) == LogBefore(c, build, next, id + 1, j)
        {
          LogBeforeStep(c, build, sent, id, j);
        }
      }
    }
  }

  /** What holds of the creates after `id` holds of them seen from `id`, once the create of `id` has passed. */
  lemma PassesBeforeStep(c: Config, app: App, sent: seq<Request>, build: nat -> map<Key, Value>, id: nat, m: nat)
    requires 1 <= m
    requires CreatePasses(c, app, sent, build(id))
    requires var next := sent + [CreatePlan(c, build(id)).request];
      && (forall j: nat :: id + 1 <= j < id + m ==> CreatePasses(c, app, LogBefore(c, build, next, id + 1, j), build(j)))
      && !CreatePasses(c, app, LogBefore(c, build, next, id + 1, id + m), build(id + m))
    ensures forall j: nat :: id <= j < id + m ==> CreatePasses(c, app, LogBefore(c, build, sent, id, j), build(j))
    ensures !CreatePasses(c, app, LogBefore(c, build, sent, id, id + m), build(id + m))
  {
    assert LogBefore(c, build, sent, id, id) == sent;
    forall j: nat | id < j <= id + m
      ensures LogBefore(c, build, sent, id, j) == LogBefore(c, build, sent + [CreatePlan(c, build(id)).request], id + 1, j)
    {
      LogBeforeStep(c, build, sent, id, j);
    }
  }

  /**
   * A failing populate stops at its first failing create: with `m` posts
   * sent, the creates of ids `id` to `id + m - 2` passed and that of
   * `id + m - 1` failed.
   */
  lemma {:induction false} PopulateStopsAtFailure(c: Config, app: App, sent: seq<Request>, build: nat -> map<Key, Value>, id: nat, count: int)
    ensures var r := Populate(c, app, sent, build, id, count);
      var m := |r.sent| - |sent|;
      r.outcome.Fail? ==>
        && 1 <= m
        && (forall j: nat :: id <= j < id + m - 1 ==> CreatePasses(c, app, LogBefore(c, build, sent, id, j), build(j)))
        && !CreatePasses(c, app, LogBefore(c, build, sent, id, id + m - 1), build(id + m - 1))
    decreases count - id
  {
    if id <= count - 1 {
      var next := sent + [CreatePlan(c, build(id)).request];
      PopulateRound(c, app, sent, build, id, count);
      assert LogBefore(c, build, sent, id, id) == sent;
      if CreatePasses(c, app, sent, build(id)) {
        PopulateStopsAtFailure(c, app, next, build, id + 1, count);
        var r := Populate(c, app, next, build, id + 1, count);
        var m := |r.sent| - |next|;
        assert Populate(c, app, sent, build, id, count) == r;
        assert |r.sent| - |sent| == m + 1;
        if r.outcome.Fail? {
          PassesBeforeStep(c, app, sent, build, id, m);
        }
      }
    }
  }

  /** One round of the sweep, in terms of `PagePasses`: a passing round goes on, a failing one ends the run. */
  lemma SweepRound(c: Config, app: App, sent: seq<Request>, count: int, ws: seq<Window>)
    requires ws != []
    ensures var next := sent + [PageRequest(c, ws[0])];
      var r := Sweep(c, app, sent, count, ws);
      && (PagePasses(c, app, sent, count, ws[0]) ==> r == Sweep(c, app, next, count, ws[1..]))
      && (!PagePasses(c, app, sent, count, ws[0]) ==> r.sent == next && r.outcome.Fail?)
  {
  }

  /** A sweep sends the page requests of its windows in order, stopping after the first failing round. */
  lemma {:induction false} SweepSends(c: Config, app: App, sent: seq<Request>, count: int, ws: seq<Window>)
    ensures var r := Sweep(c, app, sent, count, ws);
      && |sent| <= |r.sent| <= |sent| + |ws|
      && r.sent == sent + PageRequests(c, ws)[..|r.sent| - |sent|]
      && (r.outcome.Pass? ==> r.sent == sent + PageRequests(c, ws))
    decreases |ws|
  {
    if ws != [] {
      SweepRound(c, app, sent, count, ws);
      var next := sent + [PageRequest(c, ws[0])];
      if PagePasses(c, app, sent, count, ws[0]) {
        var rest := ws[1..];
        SweepSends(c, app, next, count, rest);
        var r := Sweep(c, app, next, count, rest);
        var m := |r.sent| - |next|;
        PageRequestsPrefix(c, ws, m + 1);
        assert r.sent == sent + ([PageRequest(c, ws[0])] + PageRequests(c, rest)[..m]);
      } else {
        PageRequestsPrefix(c, ws, 1);
      }
    }
  }

  /** Every round over `ws` passes, each given the requests sent before it. */
  predicate PagesPass(c: Config, app: App, sent: seq<Request>, count: int, ws: seq<Window>) {
    forall k :: 0 <= k < |ws| ==> PagePasses(c, app, sent + PageRequests(c, ws)[..k], count, ws[k])
  }

  /** A sweep passes exactly when every round does, each given the requests sent before it. */
  lemma {:induction false} SweepPasses(c: Config, app: App, sent: seq<Request>, count: int, ws: seq<Window>)
    ensures Sweep(c, app, sent, count, ws).outcome.Pass? <==> PagesPass(c, app, sent, count, ws)
    decreases |ws|
  {
    if ws != [] {
      var next := sent + [PageRequest(c, ws[0])];
      var rest := ws[1..];
      SweepRound(c, app, sent, count, ws);
      assert sent + PageRequests(c, ws)[..0] == sent;
      if PagePasses(c, app, sent, count, ws[0]) {
        SweepPasses(c, app, next, count, rest);
        forall k | 1 <= k < |ws|
          ensures sent + PageRequests(c, ws)[..k] == next + PageRequests(c, rest)[..k - 1]
          ensures ws[k] == rest[k - 1]
        {
          PageRequestsPrefix(c, ws, k);
        }
        if !Sweep(c, app, sent, count, ws).outcome.Pass? {
          var j :| 0 <= j < |rest| && !PagePasses(c, app, next + PageRequests(c, rest)[..j], count, rest[j]);
          assert !PagePasses(c, app, sent + PageRequests(c, ws)[..j + 1], count, ws[j + 1]);
        }
      }
    }
  }

  /** What holds of the rounds after the first holds of them seen from the first, once the first has passed. */
  lemma RoundsBeforeStep(c: Config, app: App, sent: seq<Request>, count: int, ws: seq<Window>, m: nat)
    requires 1 <= m < |ws|
    requires PagePasses(c, app, sent, count, ws[0])
    requires var next := sent + [PageRequest(c, ws[0])];
      && (forall k :: 0 <= k < m - 1 ==> PagePasses(c, app, next + PageRequests(c, ws[1..])[..k], count, ws[1..][k]))
      && !PagePasses(c, app, next + PageRequests(c, ws[1..])[..m - 1], count, ws[1..][m - 1])
    ensures forall k :: 0 <= k < m ==> PagePasses(c, app, sent + PageRequests(c, ws)[..k], count, ws[k])
    ensures !PagePasses(c, app, sent + PageRequests(c, ws)[..m], count, ws[m])
  {
    assert sent + PageRequests(c, ws)[..0] == sent;
    forall k | 1 <= k <= m
      ensures sent + PageRequests(c, ws)[..k] == sent + [PageRequest(c, ws[0])] + PageRequests(c, ws[1..])[..k - 1]
      ensures ws[k] == ws[1..][k - 1]
    {
      PageRequestsPrefix(c, ws, k);
    }
  }

  /**
   * A failing sweep stops at its first failing round: with `m` page reads
   * sent, the first `m - 1` rounds passed and the `m`-th failed.
   */
  lemma {:induction false} SweepStopsAtFailure(c: Config, app: App, sent: seq<Request>, count: int, ws: seq<Window>)
    ensures var r := Sweep(c, app, sent, count, ws);
      var m := |r.sent| - |sent|;
      r.outcome.Fail? ==>
        && 1 <= m <= |ws|
        && (forall k :: 0 <= k < m - 1 ==> PagePasses(c, app, sent + PageRequests(c, ws)[..k], count, ws[k]))
        && !PagePasses(c, app, sent + PageRequests(c, ws)[..m - 1], count, ws[m - 1])
    decreases |ws|
  {
    if ws != [] {
      var next := sent + [PageRequest(c, ws[0])];
      var rest := ws[1..];
      SweepRound(c, app, sent, count, ws);
      assert sent + PageRequests(c, ws)[..0] == sent;
      if PagePasses(c, app, sent, count, ws[0]) {
        SweepSends(c, app, next, count, rest);
        SweepStopsAtFailure(c, app, next, count, rest);
        var r := Sweep(c, app, next, count, rest);
        var m := |r.sent| - |next|;
        assert Sweep(c, app, sent, count, ws) == r;
        assert |r.sent| - |sent| == m + 1;
        if r.outcome.Fail? {
          RoundsBeforeStep(c, app, sent, count, ws, m);
        }
      }
    }
  }

  /**
   * A pagination run passes exactly when every create passes and then every
   * page of the sweep does: each answers 200 with the window's record count,
   * `found == total == count`, and the window's length and offset. A passing
   * run has posted `build(0)` to `build(count - 1)` in order and then read
   * every window, and the windows tile the created records exactly.
   */
  lemma PaginatePasses(c: Config, app: App, sent: seq<Request>, opts: map<Key, Value>,
                       build: nat -> map<Key, Value>, rolls: nat -> int)
    requires IntegerOption(opts, CountKey) && IntegerOption(opts, MaxLengthKey)
    requires RandomDraws(rolls, MaxLengthOption(opts))
    ensures var count := CountOption(opts);
      var created := if count > 0 then count else 0;
      var ws := Windows(count, rolls, MaxLengthOption(opts), 0, 0);
      var creates := sent + CreateRequests(c, build, 0, created);
      var r := Paginate(c, app, sent, opts, build, rolls);
      && Expected(ws) == created
      && (r.outcome.Pass? <==> CreatesPass(c, app, sent, build, 0, count) && PagesPass(c, app, creates, count, ws))
      && (r.outcome.Pass? ==> r.sent == creates + PageRequests(c, ws))
  {
    var count := CountOption(opts);
    var max := MaxLengthOption(opts);
    var created := if count > 0 then count else 0;
    var ws := Windows(count, rolls, max, 0, 0);
    var creates := sent + CreateRequests(c, build, 0, created);
    WindowsExpected(count, rolls, max);
    PopulateAllPass(c, app, sent, build, 0, count);
    if Populate(c, app, sent, build, 0, count).outcome.Pass? {
      PopulatePasses(c, app, sent, build, count);
      PaginateAfterPopulate(c, app, sent, opts, build, rolls);
      SweepSends(c, app, creates, count, ws);
      SweepPasses(c, app, creates, count, ws);
    }
  }

  /** Once populating passes, pagination is the sweep over the windows, from where populating left off. */
  lemma PaginateAfterPopulate(c: Config, app: App, sent: seq<Request>, opts: map<Key, Value>,
                              build: nat -> map<Key, Value>, rolls: nat -> int)
    requires IntegerOption(opts, CountKey) && IntegerOption(opts, MaxLengthKey)
    requires RandomDraws(rolls, MaxLengthOption(opts))
    ensures var populated := Populate(c, app, sent, build, 0, CountOption(opts));
      populated.outcome.Pass? ==>
        Paginate(c, app, sent, opts, build, rolls)
        == Sweep(c, app, populated.sent, CountOption(opts), Windows(CountOption(opts), rolls, MaxLengthOption(opts), 0, 0))
  {
  }

  /** The windows expect exactly the records created: `count` of them, none when `count` is not positive. */
  lemma WindowsExpected(count: int, rolls: nat -> int, max: int)
    requires RandomDraws(rolls, max)
    ensures Expected(Windows(count, rolls, max, 0, 0)) == if count > 0 then count else 0
  {
    if count > 0 {
      WindowsTile(count, rolls, max, 0, 0);
    }
  }

  /** A populating run that passes has posted every `build(id)`, in order. */
  lemma PopulatePasses(c: Config, app: App, sent: seq<Request>, build: nat -> map<Key, Value>, count: int)
    requires Populate(c, app, sent, build, 0, count).outcome.Pass?
    ensures Populate(c, app, sent, build, 0, count).sent == sent + CreateRequests(c, build, 0, if count > 0 then count else 0)
  {
    PopulateTrace(c, app, sent, build, 0, count);
  }

  // ---------------------------------------------------------------------
  // The driver, step by step
  // ---------------------------------------------------------------------

  /** Lines 97-99: `0.upto(count - 1) { |id| create_resource(yield(id)) }`, each block result a fresh hash. */
  method PopulateResources(c: Config, app: App, sent: seq<Request>, build: nat -> map<Key, Value>, count: int)
    returns (sent': seq<Request>, outcome: Outcome)
    ensures Run(sent', outcome) == Populate(c, app, sent, build, 0, count)
  {
    sent' := sent;
    var id := 0;
    while id <= count - 1
      invariant 0 <= id && (id <= count || id == 0)
      invariant Populate(c, app, sent, build, 0, count) == Populate(c, app, sent', build, id, count)
      decreases count - id
    {
      var params := new Hash(build(id));
      var created;
      sent', created := CreateResource(c, app, sent', params);
      if created.Failed? {
        return sent', Fail(created.failure);
      }
      id := id + 1;
    }
    outcome := Pass;
  }

  /**
   * Lines 101-129: the read loop. `rolls(round)` is what `rand(max - 1)`
   * yields in that round; each page query is a fresh hash handed to
   * `read_resource`.
   */
  method SweepPages(c: Config, app: App, sent: seq<Request>, count: int, max: int, rolls: nat -> int)
    returns (sent': seq<Request>, outcome: Outcome)
    requires RandomDraws(rolls, max)
    ensures Run(sent', outcome) == Sweep(c, app, sent, count, Windows(count, rolls, max, 0, 0))
  {
    sent' := sent;
    var retrieved := 0;
    var offset := 0;
    var round := 0;
    ghost var todo := Windows(count, rolls, max, 0, 0);
    while retrieved < count
      invariant offset == retrieved
      invariant 0 <= retrieved && (retrieved <= count || retrieved == 0)
      invariant todo == Windows(count, rolls, max, retrieved, round)
      invariant Sweep(c, app, sent, count, Windows(count, rolls, max, 0, 0)) == Sweep(c, app, sent', count, todo)
      decreases count - retrieved
    {
      var length := RequestedLength(rolls(round));
      var expectedLength := ExpectedLength(length, count - retrieved);
      WindowsHead(count, rolls, max, retrieved, round);
      PageReadPlan(c, todo[0]);

      var query := new Hash(map[OffsetKey := Int(offset), LengthKey := Int(length)]);
      var page;
      sent', page := ReadResource(c, app, sent', query);
      if page.Failed? {
        return sent', Fail(page.failure);
      }
      var check := CheckPage(c, count, Window(offset, length, expectedLength), page.value);
      if check.Fail? {
        return sent', check;
      }

      retrieved := retrieved + expectedLength;
      offset := retrieved;
      round := round + 1;
      todo := todo[1..];
    }
    outcome := Pass;
  }

  /** `paginate_resource(opts) { |id| build(id) }` (lines 91-130). */
  method PaginateResource(c: Config, app: App, sent: seq<Request>, opts: map<Key, Value>,
                          build: nat -> map<Key, Value>, rolls: nat -> int)
    returns (sent': seq<Request>, outcome: Outcome)
    requires IntegerOption(opts, CountKey) && IntegerOption(opts, MaxLengthKey)
    requires RandomDraws(rolls, MaxLengthOption(opts))
    ensures Run(sent', outcome) == Paginate(c, app, sent, opts, build, rolls)
  {
    var count := CountOption(opts);
    var max := MaxLengthOption(opts);

    // populate the DB
    sent', outcome := PopulateResources(c, app, sent, build, count);
    if outcome.Fail? {
      return;
    }
    sent', outcome := SweepPages(c, app, sent', count, max, rolls);
  }
}
