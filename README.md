# rack-test-rest, modelled in Dafny

`Rack::Test::Rest` (lib/rack-test-rest.rb) is a mixin for Ruby REST tests. It drives one
resource of an application under test through rack-test and checks the answers with
minitest assertions:

- `resource_uri` joins the configured root URI and resource name.
- `create_resource`, `read_resource`, `update_resource` and `delete_resource` send one
  request each. The reserved keys are `:code` (the status the caller expects) and `:id`.
  Before sending, create removes `:code` from the caller's own hash. Read removes `:code`,
  and `:id` too when it is truthy. Update removes both. Delete only reads them and removes
  nothing. Each helper then asserts the status: the caller's `:code`, or else 201, 200, 204
  and 204.
- `paginate_resource` creates `count` resources from the caller's block. It then reads the
  collection back in windows of random length and asserts what every page reports.

The model keeps the helper's decisions and leaves out the transport:

- `RubyValues` (ruby_values.dfy): hash keys (`:id` and `'id'` are different keys), the
  values in a parameter hash, Ruby truthiness, and string interpolation. That includes the
  decimal text of integers and its inverse. A `Hash` class is changed in place by `Delete`,
  as `params.delete` changes the caller's hash.
- `Http` (http.dfy): requests, responses (status, `Location` header, body as decoded JSON),
  and the application under test as a function `App` from the requests sent so far and the
  next request to its response.
- `Rest` (rest.dfy): the endpoints and the status each helper accepts. A `Plan` per helper
  says what it sends, the status check it makes and what it leaves in the caller's hash. A
  verdict per helper says what it answers after the response. The methods
  `CreateResource`, `ReadResource`, `UpdateResource` and `DeleteResource` do the same step by
  step on a `Hash` object, and their contracts tie them to the plans and verdicts.
- `Pagination` (pagination.dfy): the options, and the windows a sweep requests for a given
  sequence of random draws. `Populate`, `Sweep` and `Paginate` are functions over the
  request log, with lemmas about them. The methods `PopulateResources`, `SweepPages` and
  `PaginateResource` have the Ruby loops, and each is proved equal to its function.

A failed `assert` is the outcome `Fail` with the check that failed. A Ruby error raised
before or instead of a check (`nil.count`, `JSON.parse` on text that is not JSON) fails
that same line. Ruby's `==` compares numbers by value, so a `:code` of `201.0` or `201r`
accepts status 201; the model keeps Floats and Rationals by their exact value for that
comparison. Decoded JSON holds integers only (see "Left out"). For the standard Ruby
objects (not objects with a user-defined `==`, see "Left out"), and within those limits,
pass or fail is exact and the reported reason is the line at which the run stops.

Where the repository's tests and lib/rack-test-rest.rb disagree, the model follows the
code. test/rack_test_rest_test.rb describes a later version:

- It expects the caller's hash to stay unchanged (lines 41-47 and 63-69). Lines 38 and 66
  of the code delete `:id` from it.
- It expects string keys to work (lines 90-103). The code reads only symbol keys.
- It expects paths without `.json` (lines 24, 35, 55, 76 and 98). The code posts to `"#{resource_uri}.json"`.

The pagination comment says "a random number from 1-100". The code draws
`rand(max - 1) + 1`, which lies in 1 to max - 1 (1 to 99 by default).
`Pagination.RequestedLengthRange` states that range, in both directions.

## Model

| member | source | states |
|---|---|---|
| `RubyValues.NatToText` | lib/rack-test-rest.rb:39 | the decimal text of an id is non-empty, all digits, and has no leading zero |
| `RubyValues.NatToTextRoundTrip` | lib/rack-test-rest.rb:39 | reading the decimal text of a natural number back gives that number |
| `RubyValues.IntToTextRoundTrip` | lib/rack-test-rest.rb:70 | reading `Integer#to_s` back gives the integer, negative ones included |
| `RubyValues.Hash.constructor` | lib/rack-test-rest.rb:115 | a fresh hash holds exactly the given entries |
| `RubyValues.Hash.Delete` | lib/rack-test-rest.rb:63-66 | `delete` removes exactly that key from the hash and answers the value it held, or `nil` when absent |
| `Rest.ResourceUri` | lib/rack-test-rest.rb:5-7 | `resource_uri` is the root, then `/`, then the resource's `to_s`, each found at its own position |
| `Rest.CollectionUri` | lib/rack-test-rest.rb:14 | the collection endpoint is `resource_uri` followed by exactly `.json` |
| `Rest.ItemUri` | lib/rack-test-rest.rb:39 | the item endpoint is `resource_uri`, `/`, the interpolated id and `.json`; the id's text is recovered from it unchanged |
| `Rest.ItemUriDeterminesIntId` | lib/rack-test-rest.rb:82 | two integer ids that give the same item endpoint are equal |
| `Rest.CollectionUriIsNoItemUri` | lib/rack-test-rest.rb:36-42 | the collection endpoint differs from every item endpoint |
| `Rest.AcceptedStatuses` | lib/rack-test-rest.rb:16-88 | at the status checks of lines 16-27, 52-58, 74-78 and 84-88, the statuses accepted are exactly `{code}` for an Integer `:code`, and `{code}` for any other number (a Float or a Rational, say) with a whole value (none otherwise); exactly the helper's default (201/200/204/204) when `:code` is absent or falsy; none for any other truthy standard object that is not a number |
| `Rest.CreatePlan` | lib/rack-test-rest.rb:9-14 | create posts to the collection; it sends the caller's hash minus `:code`, values unchanged, and leaves the caller's hash as it sent it |
| `Rest.ReadPlan` | lib/rack-test-rest.rb:32-45 | read gets the item endpoint and drops `:code` and `:id` exactly when `:id` is truthy; otherwise it gets the collection and drops only `:code`; the query is what remains in the caller's hash |
| `Rest.UpdatePlan` | lib/rack-test-rest.rb:61-70 | update puts to the item named by `:id`, present or not; it sends and leaves the hash minus `:code` and `:id` |
| `Rest.DeletePlan` | lib/rack-test-rest.rb:81-82 | delete sends the item endpoint with no parameters and leaves the caller's hash as it was |
| `Rest.ReservedKeysOnly` | lib/rack-test-rest.rb:10-85 | across all four helpers (lines 10-11, 33-38, 62-66 and 81-85), `:code` is never sent, only `:code` and `:id` are removed, and every key that stays keeps its value |
| `Rest.ItemEndpointExactly` | lib/rack-test-rest.rb:36-42 | the item endpoint is used exactly by update, by delete, and by read with a truthy `:id` |
| `Rest.CreateVerdict` | lib/rack-test-rest.rb:16-29 | create passes iff the status is accepted and, on the default path, the configured Location pattern matches; when it passes it answers the Location header on both paths; a wrong status fails first |
| `Rest.ReadVerdict` | lib/rack-test-rest.rb:52-58 | read passes iff the status is accepted and, on the default path, the body is JSON; it answers `nil` with a `:code` and the parsed body otherwise |
| `Rest.StatusVerdict` | lib/rack-test-rest.rb:74-88 | update (lines 74-78) and delete (lines 84-88) pass iff the status is accepted |
| `Rest.CreateResource` | lib/rack-test-rest.rb:9-30 | the caller's hash ends as `CreatePlan` leaves it, one post is appended to the log, and the answer is `CreateVerdict` of the response |
| `Rest.ReadResource` | lib/rack-test-rest.rb:32-59 | the caller's hash ends as `ReadPlan` leaves it, one get is appended, and the answer is `ReadVerdict` of the response |
| `Rest.UpdateResource` | lib/rack-test-rest.rb:61-79 | the caller's hash ends as `UpdatePlan` leaves it, one put is appended, and the outcome is `StatusVerdict` of the response |
| `Rest.DeleteResource` | lib/rack-test-rest.rb:81-89 | the caller's hash is not modified, one delete is appended, and the outcome is `StatusVerdict` of the response |
| `Pagination.CountOption` | lib/rack-test-rest.rb:93 | the Integer `:count`, or 512 when it is unset or falsy; 0 counts as given |
| `Pagination.MaxLengthOption` | lib/rack-test-rest.rb:94 | the Integer `:max_length`, or 100 when it is unset or falsy; 0 counts as given |
| `Pagination.RequestedLengthRange` | lib/rack-test-rest.rb:106 | a round can request exactly the lengths 1 to max - 1 |
| `Pagination.ExpectedLength` | lib/rack-test-rest.rb:108 | the expected length of a round is the smaller of the requested length and what remains |
| `Pagination.Windows` | lib/rack-test-rest.rb:104-108 | the windows of the `while` loop for given draws; `WindowsHead`, `WindowAt`, `WindowsTile`, `WindowsAdjacent` and `WindowsPartition` state what they are |
| `Pagination.WindowsHead` | lib/rack-test-rest.rb:104-108 | (proof helper, one step of the definition) while records remain, the next window starts at `retrieved`, requests `rand + 1` and expects the smaller of that and what remains |
| `Pagination.WindowsTile` | lib/rack-test-rest.rb:101-129 | the windows start at `retrieved`, end at `count`, expect `count - retrieved` records in all, and there are at most that many; there are none exactly when nothing remains |
| `Pagination.WindowsAdjacent` | lib/rack-test-rest.rb:127-128 | each window starts where the one before it ends, with no gap and no overlap |
| `Pagination.WindowAt` | lib/rack-test-rest.rb:104-108 | each round requests 1 to max - 1 records and expects `min(length, count - offset)`, which is between 1 and what remains |
| `Pagination.WindowBounds` | lib/rack-test-rest.rb:104-108 | the bounds of every round of a whole sweep |
| `Pagination.WindowsPartition` | lib/rack-test-rest.rb:127-128 | every record from `retrieved` up to `count` lies in exactly one window |
| `Pagination.WindowsExpected` | lib/rack-test-rest.rb:101-129 | the windows of a sweep expect `count` records, or none when `count` is not positive |
| `Pagination.RecordCount` | lib/rack-test-rest.rb:118 | the records of a page are found only under a String resource; any other standard resource finds `nil`, whose `count` raises |
| `Pagination.CheckPage` | lib/rack-test-rest.rb:118-125 | a page passes iff its record count is the expected length, `found` and `total` are `count`, and `length` and `offset` are the window's; a wrong record count is reported first |
| `Pagination.PageReadPlan` | lib/rack-test-rest.rb:115 | a page read gets the collection with exactly `offset` and `length`, expects 200, and leaves its hash as it was |
| `Pagination.PageRound` | lib/rack-test-rest.rb:115-125 | one round passes iff the page answers 200 with a JSON body that agrees with the window |
| `Pagination.CreateRequestsAt` | lib/rack-test-rest.rb:97-98 | the `k`-th post of populating is that of `build(id + k)` |
| `Pagination.Populate` | lib/rack-test-rest.rb:97-99 | the `upto` loop, stopping at the first failing create; `PopulateTrace`, `PopulateAllPass` and `PopulateStopsAtFailure` state what it does |
| `Pagination.PopulateRound` | lib/rack-test-rest.rb:98 | (proof helper, one step of the definition) a create that passes goes on to the next id; one that fails ends the run after its one post |
| `Pagination.PopulateTrace` | lib/rack-test-rest.rb:97-99 | populating posts a prefix of `build(id)`, `build(id + 1)`, ... in order, at least one when it fails, and all `count - id` when it passes |
| `Pagination.PopulateAllPass` | lib/rack-test-rest.rb:97-99 | populating passes iff every create passes, each given the requests sent before it |
| `Pagination.PopulateStopsAtFailure` | lib/rack-test-rest.rb:97-99 | a failing populate that sent `m` posts stops at the first failure: the creates of the first `m - 1` ids passed and the `m`-th failed |
| `Pagination.PopulatePasses` | lib/rack-test-rest.rb:97-99 | a passing populate posted exactly `build(0)` to `build(count - 1)` |
| `Pagination.Sweep` | lib/rack-test-rest.rb:104-129 | the read loop over given windows, stopping at the first failing round; `SweepSends`, `SweepPasses` and `SweepStopsAtFailure` state what it does |
| `Pagination.SweepRound` | lib/rack-test-rest.rb:115-128 | (proof helper, one step of the definition) a round that passes goes on to the next; one that fails ends the run after its one request |
| `Pagination.SweepSends` | lib/rack-test-rest.rb:104-115 | a sweep sends a prefix of its windows' page requests, in order, and all of them when it passes |
| `Pagination.SweepPasses` | lib/rack-test-rest.rb:104-129 | a sweep passes iff every round passes, each given the requests sent before it |
| `Pagination.SweepStopsAtFailure` | lib/rack-test-rest.rb:104-129 | a failing sweep that sent `m` page reads stops at the first failure: the first `m - 1` rounds passed and the `m`-th failed |
| `Pagination.Paginate` | lib/rack-test-rest.rb:91-130 | the whole helper: populate, then sweep; `PaginateAfterPopulate` and `PaginatePasses` state what it does |
| `Pagination.PaginateAfterPopulate` | lib/rack-test-rest.rb:96-104 | (proof helper, one step of the definition) once populating passes, pagination is the sweep that starts where populating left off |
| `Pagination.PaginatePasses` | lib/rack-test-rest.rb:91-130 | a run passes iff every create passes and then every page answers 200 with the window's record count, `found == total == count`, and the window's length and offset; a passing run posted `build(0)` to `build(count - 1)` in order, then read windows that expect exactly the created records |
| `Pagination.PopulateResources` | lib/rack-test-rest.rb:97-99 | the `upto` loop, each block result in a fresh hash, produces exactly the run `Populate` describes |
| `Pagination.SweepPages` | lib/rack-test-rest.rb:101-129 | the `while` loop keeps `offset == retrieved` and produces exactly the run `Sweep` describes over the windows of its draws |
| `Pagination.PaginateResource` | lib/rack-test-rest.rb:91-130 | the whole helper produces exactly the run `Paginate` describes |

## Left out

- The HTTP transport (`post`, `get`, `put`, `delete`, `last_response`, `original_headers`)
  belongs to rack-test. It is the `App` parameter: any application, stateful or not, as a
  function of the requests sent before.
- `JSON.parse` is a foreign library. A body is given already decoded. A body that does not
  parse is `None`, and numbers are integers only, so a float such as `512.0` cannot appear
  in a page.
- The Location pattern is a Ruby `Regexp`. It is given as the predicate it stands for.
- `rand` is replaced by `rolls`, the value each round draws, constrained to what
  `rand(max - 1)` yields for `max_length` 2 or more.
- Pagination.PaginateResource: requires `max_length` to be 2 or more (through the draws).
  With `max_length: 1`, `rand(0)` returns a Float and the lengths sent are Floats. With
  `max_length` 0 or less, `Kernel#rand` uses the absolute value of `max - 1`, so each round
  requests 1 to `1 - max` records (always 1 for 0) and the run goes on as usual. Neither case
  is modelled.
- The `puts` debug tracing is output only. The `:debug` option is not modelled.
- Minitest's `assert` is modelled as pass or fail only. Messages and failure counts are
  left out.
- The configured root URI is held as the text it interpolates to. The resource is kept as
  the configured object: it interpolates as its `to_s`, and a resource that is not a String
  (a Symbol, say) finds no records in a page, so the first round fails, as in Ruby.
- Rest.AcceptedStatuses: a `:code` that is not a number is taken to equal no Integer.
  `Integer#==` hands such an argument to its own `==`, so an object with a user-defined `==`
  could accept a status; that is not modelled.
- Pagination.RecordCount: a resource that is not a String is taken to find no records. An
  Integer or Range resource indexing a page that is a JSON array is not modelled. There
  the record count at line 118 can pass, and the round fails at line 121 instead, since an
  Array cannot be indexed by `"query"`; the model reports the record count.
- Ruby hashes keep insertion order. Maps do not, so the order of the parameters sent is not
  modelled.
- Pagination.PaginateResource: requires `:count` and `:max_length` to be unset, falsy or
  Integers. With any other value the Ruby arithmetic raises or uses Float or String
  semantics, which the model does not capture.
- Pagination.PopulateResources: the block is called for each id and its result put in a
  fresh `Hash`. A block that returns the same hash object every time, which create would
  then mutate between calls, is not modelled.
- Rest.ReadVerdict: a body of literal `null` parses to `nil`. The model keeps it as `JNull`,
  and since every page check then fails, the outcome is the same.
