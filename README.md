# Route driver decision logic: a verified Dafny model

This project models the decision logic of `valhalla_run_route`, the command-line
driver that computes one route with Valhalla's path engine. The driver sits around
search engines and costing classes whose code is not part of this model. It still
makes several decisions of its own, and these are modelled and proved here:

- **Retry machine** (`PathTest`). The first pass runs with default settings. If
  its path is empty and the costing allows multi-pass, the algorithm is cleared,
  the hierarchy limits are relaxed (factor 4 for A*, 2 otherwise) and a second pass
  runs. If the path is still empty, only A* gets a third pass: highway transitions
  are disabled, the algorithm is cleared, and the search runs again. Every
  retry-pass call of `GetBestPath` bumps the `passes` counter; the benchmark
  calls after a success do not. The engine is an *oracle*: a function
  from the history of side effects (searches, clears, relaxations, disablings) to
  the path it returns. So a result may depend on everything done to the shared
  algorithm and costing objects, earlier legs included.
- **Statistics record** (`PathStatistics`). A class whose setters and incrementers
  update its fields. The 32-bit counters wrap around explicitly.
- **Main's decision blocks**:
  - finding the locations (any failure gives `fail_invalid_origin`);
  - the connectivity fast-reject (a colour histogram);
  - the choice of path algorithm;
  - the classification of a failed leg from the unreachable flags of its
    candidate edges.
- **Costing options** (`get_costing`). A missing `costing_options.<name>` entry is
  an error. Otherwise each request option replaces or adds the configured option
  of that name. The merged options are written back into the configuration.
- **Formatting**:
  - `GetFormattedTime` renders a duration as "H hour(s), M minute(s)". A parser
    for that format recovers exactly the expected parts.
  - `to_string(Location)` joins the six address fields with commas. Splitting at
    commas gives the fields back when no field holds one.
- **Arguments**:
  - the mandatory-argument check when no JSON request is given;
  - lower-casing of the route type;
  - placement of the request's `date_time` on the first or last location.

Modules: `Wrappers` (Option/Result), `Statistics`, `Orchestrator`, `Driver`,
`CostingOptions`, `Formatting`, `Locations`, `Arguments`, one file each.

Behaviour of the code that the model keeps as written:

- A* is chosen whenever *any* origin candidate shares an edge with *any*
  destination candidate, not only when both locations sit on one edge. It is
  never chosen for `pedestrian` or `multimodal`.
- A failed search for *any* location, the destination included, is reported as
  `fail_invalid_origin`.
- After a successful pass the benchmark loop calls `GetBestPath` again. So the
  search engine can be invoked more than three times, though `passes` counts at
  most three.
- The relaxations and the disabling act on the costing object that every leg
  shares, and nothing undoes them.
- The computed `relax_factor` (16 or 8) is never used. Only the expansion factor
  reaches `RelaxHierarchyLimits`.

## Model

| member | source | states |
|---|---|---|
| `Statistics.WrapAdd` | src/valhalla_run_route.cc:60-61 | `uint32_t` addition: the exact sum when it fits below 2^32, otherwise the sum minus 2^32 |
| `Statistics.Label` | src/valhalla_run_route.cc:729-737 | every outcome is stored under its own label, and no label is the initial "false" |
| `Statistics.LabelInjective` | src/valhalla_run_route.cc:729-737 | distinct outcomes have distinct labels |
| `Statistics.PathStatistics.constructor` | src/valhalla_run_route.cc:54-57 | a fresh record has success "false" and all counters zero |
| `Statistics.PathStatistics.SetSuccess` | src/valhalla_run_route.cc:59 | only `success` changes, and it becomes the given label |
| `Statistics.PathStatistics.RecordOutcome` | src/valhalla_run_route.cc:612 | storing an outcome sets `success` to that outcome's label and changes nothing else |
| `Statistics.PathStatistics.IncPasses` | src/valhalla_run_route.cc:60 | only `passes` changes; it grows by one modulo 2^32 |
| `Statistics.PathStatistics.AddRuntime` | src/valhalla_run_route.cc:61 | only `runtime` changes; it grows by the given milliseconds modulo 2^32 |
| `Statistics.PathStatistics.SetTripTime` | src/valhalla_run_route.cc:62 | only the trip time changes |
| `Statistics.PathStatistics.SetManeuvers` | src/valhalla_run_route.cc:65 | only the maneuver count changes |
| `Orchestrator.SearchSession.GetBestPath` | src/valhalla_run_route.cc:88 | the path is the oracle's answer for the history so far, and the call is logged |
| `Orchestrator.SearchSession.Clear` | src/valhalla_run_route.cc:94 | only a clear of the algorithm is added to the history |
| `Orchestrator.SearchSession.RelaxHierarchyLimits` | src/valhalla_run_route.cc:97 | only a relaxation with the given A* flag and expansion factor is added to the history |
| `Orchestrator.SearchSession.DisableHighwayTransitions` | src/valhalla_run_route.cc:108 | only the disabling of highway transitions is added to the history |
| `Orchestrator.EarlyPasses` | src/valhalla_run_route.cc:88-101 | reference definition of the first two passes: two calls exactly when the first path is empty and multi-pass is allowed, otherwise one call whose path is the result |
| `Orchestrator.Passes` | src/valhalla_run_route.cc:88-116 | reference definition of all passes: one to three calls, and three only with A* |
| `Orchestrator.Benchmark` | src/valhalla_run_route.cc:139-145 | the effects of `n` benchmark runs, a search then a clear each time: twice `n` events |
| `Orchestrator.EarlyPassesOf` | src/valhalla_run_route.cc:88-101 | result, effects and increments are those of `EarlyPasses`: first pass, then the cleared and relaxed pass only on an empty result with multi-pass allowed; one increment per call |
| `Orchestrator.AllPassesOf` | src/valhalla_run_route.cc:88-116 | result, effects and increments are those of `Passes`: the early passes, then for A* only the disable, clear, search pass on an empty result |
| `Orchestrator.PathTest` | src/valhalla_run_route.cc:79-150 | the trip is built from the last pass's path exactly when it is non-empty; the log is the passes' effects, then a `Clear` and the benchmark runs after a build; `passes` grows by the number of pass calls modulo 2^32; after a build with `multiRun` the reported average is the as-written one, undefined for zero iterations |
| `Orchestrator.RunBenchmark` | src/valhalla_run_route.cc:137-147 | the loop adds exactly `iterations` search-then-clear pairs, and the average is the wrapped `uint32_t` sum of the measured times divided as written by `iterations` |
| `Orchestrator.PassesCounted` | src/valhalla_run_route.cc:88-111 | `passes` equals the number of `GetBestPath` calls |
| `Orchestrator.ThirdPassCondition` | src/valhalla_run_route.cc:91-111 | a third call happens exactly when A* is used, multi-pass is allowed and both earlier calls returned empty |
| `Orchestrator.RelaxedPassCondition` | src/valhalla_run_route.cc:91-99 | a relaxation happens exactly when the first result is empty and multi-pass is allowed; it is the third event, after a search and a clear, with factor 4 for A* and 2 otherwise, and the second search follows it |
| `Orchestrator.RestrictedPassCondition` | src/valhalla_run_route.cc:102-111 | highway transitions are disabled exactly when A* is used and the early passes were empty, and then the run ends with disable, clear, search; without A* at most two calls happen |
| `Orchestrator.ClearedBetweenPasses` | src/valhalla_run_route.cc:94-110 | between any two `GetBestPath` calls the algorithm is cleared |
| `Orchestrator.ResultIsLastCall` | src/valhalla_run_route.cc:88-116 | the run ends with a call whose path is the result, and every earlier call returned an empty path |
| `Orchestrator.BenchmarkSearches` | src/valhalla_run_route.cc:139-145 | the benchmark loop calls `GetBestPath` once per iteration |
| `Orchestrator.BenchmarkAverageAsWritten` | src/valhalla_run_route.cc:146 | the average as written is undefined exactly when there are zero iterations, and otherwise is the floor of the total over the iterations |
| `Orchestrator.ZeroIterationsDivideByZero` | src/valhalla_run_route.cc:137-146 | with a search engine that finds a path at once, the first pass succeeds, so `PathTest` builds the trip and, under `--multi-run 0`, reaches the undefined average |
| `Orchestrator.BenchmarkAverage` | src/valhalla_run_route.cc:146 | the guarded average is zero without iterations, otherwise the floor of total over iterations |
| `Orchestrator.AverageAgreesWhenDefined` | src/valhalla_run_route.cc:146 | with at least one iteration the guarded average equals the average as written |
| `Driver.FindLocations` | src/valhalla_run_route.cc:607-616 | the request fails exactly when some location's search fails, always as `fail_invalid_origin`; otherwise there is one correlated location per location, in order |
| `Driver.CountColors` | src/valhalla_run_route.cc:623-629 | the histogram holds exactly the colours that occur, each with its number of occurrences |
| `Driver.AnyCountEquals` | src/valhalla_run_route.cc:632-638 | the early-exit scan finds a count equal to the target exactly when one exists |
| `Driver.IsConnected` | src/valhalla_run_route.cc:621-644 | connected exactly when some colour occurs as many times as there are locations |
| `Driver.DistinctColorsNeverConnect` | src/valhalla_run_route.cc:622-638 | with a colour list that names each colour once, two or more locations are never found connected |
| `Driver.HitsAll` | src/valhalla_run_route.cc:634 | a colour's per-location count reaches the number of locations exactly when every location holds it |
| `Driver.IsConnectedAcross` | src/valhalla_run_route.cc:621-638 | the corrected check: connected exactly when some colour is shared by every location's region set |
| `Driver.ChooseAlgorithm` | src/valhalla_run_route.cc:655-673 | `multimodal` gives the multimodal search and `pedestrian` the bidirectional one; any other type gives A* exactly when an origin candidate and a destination candidate share an edge id, otherwise the bidirectional search |
| `Driver.ScanUnreachable` | src/valhalla_run_route.cc:701-712 | the flag is set exactly when some candidate edge is unreachable |
| `Driver.ClassifyFailure` | src/valhalla_run_route.cc:700-737 | both unreachable gives `fail_unreachable_locations`, origin only `fail_unreachable_origin`, destination only `fail_unreachable_dest`, neither `fail_no_route`, each in both directions |
| `Driver.RecordFailedLeg` | src/valhalla_run_route.cc:700-737 | the record's `success` becomes the label of the outcome, and the outcome follows the two unreachable flags as in `ClassifyFailure` |
| `CostingOptions.Merge` | src/valhalla_run_route.cc:365-372 | merged keys are the config's plus the request's; a request key takes its last value in the request; a config key absent from the request keeps its value |
| `CostingOptions.MergeIsUnion` | src/valhalla_run_route.cc:366-371 | with distinct request keys the merge is the map union that prefers the request |
| `CostingOptions.MergeIdempotent` | src/valhalla_run_route.cc:369-371 | merging the same request options again changes nothing |
| `CostingOptions.GetCosting` | src/valhalla_run_route.cc:356-374 | a missing `costing_options.<name>` fails with the "No costing method found" message and changes nothing; otherwise the result is the merge, a request without an entry leaves the options unchanged, and the configuration holds the merged options afterwards |
| `Formatting.NatToString` | src/valhalla_run_route.cc:235 | the decimal text is a non-empty string of digits without a leading zero, except for zero itself |
| `Formatting.DigitsRoundTrip` | src/valhalla_run_route.cc:235 | reading the decimal text back gives the number |
| `Formatting.FormattedTimeRoundTrip` | src/valhalla_run_route.cc:229-247 | the text parses back as hours = s/3600 and minutes = (s/60) mod 60, each shown only when non-zero, singular exactly for the count one, with ", " only between two parts |
| `Formatting.GetFormattedTime` | src/valhalla_run_route.cc:229-248 | the text is empty exactly for durations under a minute (its full content is given by `FormattedTimeRoundTrip`) |
| `Locations.ToString` | src/valhalla_run_route.cc:155-164 | the result is the six address fields joined by single commas, without a trailing comma |
| `Locations.LocationTextRoundTrip` | src/valhalla_run_route.cc:155-163 | splitting the text at commas gives back the six fields when none holds a comma |
| `Locations.PlaceDateTime` | src/valhalla_run_route.cc:509-520 | type 0 sets "current" on the first location, type 1 the value on the first, type 2 the value on the last; other types change nothing, nor do middle locations or the length |
| `Locations.PlaceDateTimeKeepsAddresses` | src/valhalla_run_route.cc:509-520 | no address field changes, and only the first (types 0, 1) or last (type 2) location can change |
| `Arguments.CheckMandatory` | src/valhalla_run_route.cc:460-471 | no message exactly when all four mandatory arguments are present; otherwise the message for the first absent one in the order origin, destination, type, config |
| `Arguments.MissingMessage` | src/valhalla_run_route.cc:464-466 | the message names the missing argument right after its opening "The <" |
| `Arguments.ToLower` | src/valhalla_run_route.cc:578 | ASCII capitals move down by 32 and everything else is kept; no capital remains |
| `Arguments.LowerCase` | src/valhalla_run_route.cc:577-578 | the route type with every character lower-cased, same length |
| `Arguments.LoweredIdempotent` | src/valhalla_run_route.cc:577-578 | lower-casing twice equals lower-casing once, and the result holds no capital |

## Left out

- The path algorithms and the costing internals are not modelled: A*, bidirectional
  A*, multimodal, and what `GetBestPath`, `Clear`, `RelaxHierarchyLimits`,
  `DisableHighwayTransitions`, `AllowMultiPass` and `travelmode` do inside. They are
  in code this model does not see. `GetBestPath` is an oracle over the effect log,
  and `AllowMultiPass` is a constant of the session.
- Graph tile access is not modelled (reader, tiles, directed edges, edge info, way
  ids). The unreachable flag of an edge is a function of its id given as input.
- Location search and the connectivity map are not modelled either. Their results
  come in as plain inputs: correlated locations or a failure, and colour lists.
- `TripPathBuilder::Build`, `DirectionsBuilder` and `DirectionsTest` are foreign
  builders with narrative logging. A built trip is the non-empty path it was built
  from, so a success is assumed to yield a trip with nodes.
- The leg loop of `main` (lines 655-739) is not modelled as a whole, nor the final
  statistics logging. Its three decisions are: `ChooseAlgorithm`, `PathTest` and
  `ClassifyFailure` (stored by `RecordFailedLeg`). The catch of `runtime_error` around `PathTest` is also not
  modelled, since the oracle never throws.
- The clock is not modelled: the benchmark's measured run times are an input
  function from run index to milliseconds. The durations of the other phases,
  logging, `PathStatistics::log` and the float fields of the record are left out:
  coordinates, trip distance, arc distance, the km/mile conversions and the
  crow-flies distance. These are I/O or floating point.
- Command-line parsing, JSON parsing and `--help`/`--version` are left out (library
  code). Only the mandatory-argument check and the costing merge over abstract maps
  are kept.
- `std::to_json(Location)` is left out. It is used only in a debug block that names
  undefined variables, it formats floats, and it appends the heading as one char.
- `PlaceDateTime`: a `date_time` without an integer `type` throws in the source.
  Here the type is always present.
- `GetCosting`: the configured options of one costing are a map, so repeated keys
  in the configuration subtree are not modelled. Neither is the ptree path
  splitting at '.': of a costing name, and of each request option name given to
  `put_child` (line 370). In the source an option named "a.b" becomes a child "b"
  nested under "a". `Merge` keeps it as the flat key "a.b", so its key-set clause
  describes only option names without a '.'. `factory.Create` is foreign, so
  the result is the merged options it would receive.
- `ToLower`: only ASCII letters are lowered, as in the "C" locale. Characters
  outside ASCII (undefined behaviour for negative `char`) are kept unchanged.
- The multimodal branch builds four costings (lines 585-592) and indexes them by
  travel mode. It is not modelled beyond its four `GetCosting` calls, because the
  mode indices come from foreign code.

## Findings

| source | as written | input that shows it | evidently intended | confidence | as-written member | corrected member |
|---|---|---|---|---|---|---|
| src/valhalla_run_route.cc:137-146 | after the benchmark loop, `msecs = totalms / iterations` divides by the iteration count | `--multi-run 0` with a route that is found: the loop runs zero times, then 0 / 0 (undefined behaviour, a crash on common targets) | skip the average, or report 0, when there are no iterations | medium, not executed | `Orchestrator.BenchmarkAverageAsWritten`, reached by `Orchestrator.PathTest` (with `Orchestrator.ZeroIterationsDivideByZero`) | `Orchestrator.BenchmarkAverage` (with `Orchestrator.AverageAgreesWhenDefined`) |
| src/valhalla_run_route.cc:622-638 | the colours are taken from `path_location.back()` only, and each count is compared with `locations.size()` | two locations in one region: the last location's colours are, say, {7}; the histogram is {7: 1}, and 1 != 2, so the request is rejected as `fail_no_connectivity` | count the colours of every location and accept when some colour appears for all of them | low, not executed (assumes the colour list of one location names each colour once) | `Driver.IsConnected` (with `Driver.DistinctColorsNeverConnect`) | `Driver.IsConnectedAcross` |
