/**
 * The multi-pass retry machine that drives one path search (`PathTest`).
 *
 * The search engines and the costing behind `GetBestPath` are not part of this
 * model. They are represented by an oracle: a total function from the history
 * of side effects performed on the algorithm and the costing so far to the
 * path that `GetBestPath` returns. Because the history is an argument, a
 * result may depend on earlier `Clear`, `RelaxHierarchyLimits` and
 * `DisableHighwayTransitions` calls, including those of earlier legs.
 */
module Orchestrator {
  import opened Wrappers
  import opened Statistics

  /** One element of a computed path: the directed edge and the elapsed time at its end. */
  datatype PathInfo = PathInfo(edgeId: nat, elapsedTime: nat)

  type Path = seq<PathInfo>

  /** The side effects the retry machine performs on the algorithm and the costing. */
  datatype Event =
    | Searched                                                 // GetBestPath
    | Cleared                                                  // PathAlgorithm::Clear
    | Relaxed(usingAstar: bool, expansionWithinFactor: real)   // DynamicCost::RelaxHierarchyLimits
    | HighwayDisabled                                          // DynamicCost::DisableHighwayTransitions

  /** What `GetBestPath` returns after a given history of side effects. */
  type Oracle = seq<Event> -> Path

  /** The trip handed back by `PathTest`: empty, or built from a non-empty path. */
  datatype Trip = EmptyTrip | Built(edges: Path)

  /**
   * The selected path algorithm together with the costing of the active
   * travel mode. `allowMultiPass` is `AllowMultiPass()` of that costing; `log`
   * records every side effect performed on either object, in order.
   */
  class SearchSession {
    const allowMultiPass: bool
    var log: seq<Event>

    constructor (allowMultiPass: bool, history: seq<Event>)
      ensures this.allowMultiPass == allowMultiPass && log == history
    {
      this.allowMultiPass := allowMultiPass;
      log := history;
    }

    method GetBestPath(oracle: Oracle) returns (p: Path)
      modifies this
      ensures p == oracle(old(log)) && log == old(log) + [Searched]
    {
      p := oracle(log);
      log := log + [Searched];
    }

    method Clear()
      modifies this
      ensures log == old(log) + [Cleared]
    {
      log := log + [Cleared];
    }

    method RelaxHierarchyLimits(usingAstar: bool, factor: real)
      modifies this
      ensures log == old(log) + [Relaxed(usingAstar, factor)]
    {
      log := log + [Relaxed(usingAstar, factor)];
    }

    method DisableHighwayTransitions()
      modifies this
      ensures log == old(log) + [HighwayDisabled]
    {
      log := log + [HighwayDisabled];
    }
  }

  /** The expansion factor handed to `RelaxHierarchyLimits` on the second pass. */
  function ExpansionWithinFactor(usingAstar: bool): real
  {
    if usingAstar then 4.0 else 2.0
  }

  /** What happens between the first and the second `GetBestPath` when multi-pass is allowed. */
  function RelaxStep(usingAstar: bool): seq<Event>
  {
    [Cleared, Relaxed(usingAstar, ExpansionWithinFactor(usingAstar))]
  }

  /** What happens before the last `GetBestPath` of an A* search. */
  const RestrictStep: seq<Event> := [HighwayDisabled, Cleared]

  /**
   * The searches of one `PathTest` started at history `h`: the side effects
   * performed, the path of the last `GetBestPath` call and the number of
   * calls made.
   */
  datatype Attempt = Attempt(events: seq<Event>, result: Path, passes: nat)

  /** The first pass, followed by the relaxed pass when it is empty and multi-pass is allowed. */
  function EarlyPasses(h: seq<Event>, allowMultiPass: bool, usingAstar: bool, oracle: Oracle): (r: Attempt)
    ensures r.passes == 2 <==> |oracle(h)| == 0 && allowMultiPass
    ensures r.passes == 1 ==> r.result == oracle(h)
    ensures r.passes == 1 || r.passes == 2
  {
    var p1 := oracle(h);
    if |p1| == 0 && allowMultiPass then
      var before2 := [Searched] + RelaxStep(usingAstar);
      Attempt(before2 + [Searched], oracle(h + before2), 2)
    else
      Attempt([Searched], p1, 1)
  }

  /** All passes: the early ones, then, for A* only, the restricted pass when they were empty. */
  function Passes(h: seq<Event>, allowMultiPass: bool, usingAstar: bool, oracle: Oracle): (r: Attempt)
    ensures 1 <= r.passes <= 3
    ensures r.passes == 3 ==> usingAstar
  {
    var early := EarlyPasses(h, allowMultiPass, usingAstar, oracle);
    if |early.result| == 0 && usingAstar then
      var before3 := early.events + RestrictStep;
      Attempt(before3 + [Searched], oracle(h + before3), early.passes + 1)
    else
      early
  }

  /** The repeated runs of the benchmark loop: `GetBestPath` then `Clear`, `n` times. */
  function Benchmark(n: nat): (e: seq<Event>)
    ensures |e| == 2 * n
  {
    if n == 0 then [] else Benchmark(n - 1) + [Searched, Cleared]
  }

  /** The events of `Passes` in each of the four ways the machine can run. */
  /** `GetBestPath` is called as many times as `passes` counts. */
  lemma PassesCounted(h: seq<Event>, allowMultiPass: bool, usingAstar: bool, oracle: Oracle)
    ensures var r := Passes(h, allowMultiPass, usingAstar, oracle);
            multiset(r.events)[Searched] == r.passes
  {
    PassesShape(h, allowMultiPass, usingAstar, oracle);
  }

  lemma PassesShape(h: seq<Event>, allowMultiPass: bool, usingAstar: bool, oracle: Oracle)
    ensures var r := Passes(h, allowMultiPass, usingAstar, oracle);
            var relaxed := |oracle(h)| == 0 && allowMultiPass;
            var early := if relaxed then [Searched] + RelaxStep(usingAstar) + [Searched] else [Searched];
            var restricted := usingAstar && |EarlyPasses(h, allowMultiPass, usingAstar, oracle).result| == 0;
            r.events == early + (if restricted then RestrictStep + [Searched] else [])
            && r.passes == (if relaxed then 2 else 1) + (if restricted then 1 else 0)
  {
  }

  /**
   * The third call happens exactly when A* is used, multi-pass is allowed and
   * both earlier calls returned an empty path.
   */
  lemma ThirdPassCondition(h: seq<Event>, allowMultiPass: bool, usingAstar: bool, oracle: Oracle)
    ensures Passes(h, allowMultiPass, usingAstar, oracle).passes == 3
            <==> usingAstar && allowMultiPass && |oracle(h)| == 0
                 && |oracle(h + [Searched, Cleared, Relaxed(usingAstar, 4.0)])| == 0
  {
    PassesShape(h, allowMultiPass, usingAstar, oracle);
    if usingAstar {
      assert [Searched] + RelaxStep(usingAstar) == [Searched, Cleared, Relaxed(usingAstar, 4.0)];
    }
  }

  /**
   * The relaxed pass happens exactly when the first result is empty and the
   * costing allows multi-pass; it is preceded by a `Clear` and a relaxation
   * with factor 4 for A* and 2 otherwise, and no other relaxation happens.
   */
  lemma RelaxedPassCondition(h: seq<Event>, allowMultiPass: bool, usingAstar: bool, oracle: Oracle)
    ensures var e := Passes(h, allowMultiPass, usingAstar, oracle).events;
            && ((exists k :: 0 <= k < |e| && e[k].Relaxed?) <==> |oracle(h)| == 0 && allowMultiPass)
            && (forall k :: 0 <= k < |e| && e[k].Relaxed? ==> k == 2)
            && (|oracle(h)| == 0 && allowMultiPass ==>
                  e[..4] == [Searched, Cleared, Relaxed(usingAstar, if usingAstar then 4.0 else 2.0), Searched])
  {
    PassesShape(h, allowMultiPass, usingAstar, oracle);
    var e := Passes(h, allowMultiPass, usingAstar, oracle).events;
    if |oracle(h)| == 0 && allowMultiPass {
      assert e[2].Relaxed?;
    }
  }

  /**
   * Highway transitions are disabled exactly when A* is used and the early
   * passes were empty; then the disabling, a `Clear` and the last call happen
   * in that order at the end. Without A* at most two calls happen.
   */
  lemma RestrictedPassCondition(h: seq<Event>, allowMultiPass: bool, usingAstar: bool, oracle: Oracle)
    ensures var r := Passes(h, allowMultiPass, usingAstar, oracle);
            var earlyEmpty := |oracle(h)| == 0
                              && (allowMultiPass ==> |oracle(h + [Searched, Cleared, Relaxed(usingAstar, ExpansionWithinFactor(usingAstar))])| == 0);
            && (HighwayDisabled in r.events <==> usingAstar && earlyEmpty)
            && (HighwayDisabled in r.events ==>
                  r.events[|r.events| - 3..] == [HighwayDisabled, Cleared, Searched])
            && (!usingAstar ==> r.passes <= 2)
  {
    PassesShape(h, allowMultiPass, usingAstar, oracle);
    assert [Searched] + RelaxStep(usingAstar) == [Searched, Cleared, Relaxed(usingAstar, ExpansionWithinFactor(usingAstar))];
  }

  /**
   * No stale state leaks between passes: between any two calls of
   * `GetBestPath` the algorithm is cleared.
   */
  lemma ClearedBetweenPasses(h: seq<Event>, allowMultiPass: bool, usingAstar: bool, oracle: Oracle)
    ensures var e := Passes(h, allowMultiPass, usingAstar, oracle).events;
            forall j, k :: 0 <= j < k < |e| && e[j] == Searched && e[k] == Searched ==> Cleared in e[j + 1..k]
  {
    PassesShape(h, allowMultiPass, usingAstar, oracle);
    var e := Passes(h, allowMultiPass, usingAstar, oracle).events;
    forall j, k | 0 <= j < k < |e| && e[j] == Searched && e[k] == Searched
      ensures Cleared in e[j + 1..k]
    {
      assert e[j + 1] == Cleared || e[j + 1] == HighwayDisabled;
      assert e[j + 1] == HighwayDisabled ==> e[j + 2] == Cleared;
      assert e[j + 1] == Cleared ==> e[j + 1..k][0] == Cleared;
      assert e[j + 1] == HighwayDisabled ==> e[j + 1..k][1] == Cleared;
    }
  }

  /**
   * The machine ends with a call of `GetBestPath` whose path is the result,
   * and every earlier call returned an empty path: a non-empty result at any
   * pass ends the retries.
   */
  lemma ResultIsLastCall(h: seq<Event>, allowMultiPass: bool, usingAstar: bool, oracle: Oracle)
    ensures var r := Passes(h, allowMultiPass, usingAstar, oracle);
            && |r.events| > 0 && r.events[|r.events| - 1] == Searched
            && r.result == oracle(h + r.events[..|r.events| - 1])
            && forall k :: 0 <= k < |r.events| - 1 && r.events[k] == Searched ==> |oracle(h + r.events[..k])| == 0
  {
    PassesShape(h, allowMultiPass, usingAstar, oracle);
    var r := Passes(h, allowMultiPass, usingAstar, oracle);
    var early := EarlyPasses(h, allowMultiPass, usingAstar, oracle);
    var e := r.events;
    assert h + e[..0] == h;
    assert early.result == oracle(h + early.events[..|early.events| - 1]) by {
      if |oracle(h)| == 0 && allowMultiPass {
        assert early.events[..3] == [Searched] + RelaxStep(usingAstar);
      } else {
        assert early.events[..0] == [];
      }
    }
    if usingAstar && |early.result| == 0 {
      assert e[..|e| - 1] == early.events + RestrictStep;
      assert e[..|early.events| - 1] == early.events[..|early.events| - 1];
    }
  }

  /** The benchmark loop calls `GetBestPath` once per iteration. */
  lemma {:induction false} BenchmarkSearches(n: nat)
    ensures multiset(Benchmark(n))[Searched] == n
  {
    if n > 0 {
      BenchmarkSearches(n - 1);
    }
  }

  /**
   * The sum `totalms` of the first `n` measured run times on `uint32_t`;
   * `elapsed(i)` is the duration the clock gives for run `i`.
   */
  function TotalMs(elapsed: nat -> u32, n: nat): u32
  {
    if n == 0 then 0 else WrapAdd(TotalMs(elapsed, n - 1), elapsed(n - 1))
  }

  /**
   * The average time of the benchmark loop as written: `totalms / iterations`
   * on `uint32_t`. `None` stands for the division by zero that `--multi-run 0`
   * reaches, which is undefined behaviour in C++.
   */
  function BenchmarkAverageAsWritten(totalMs: u32, iterations: u32): (r: Option<u32>)
    ensures r.None? <==> iterations == 0
    ensures r.Some? ==> r.value as int * iterations as int <= totalMs as int < (r.value as int + 1) * iterations as int
  {
    if iterations == 0 then None else Some(totalMs / iterations)
  }

  /** The evidently intended average: zero when there were no repeated runs. */
  function BenchmarkAverage(totalMs: u32, iterations: u32): (r: u32)
    ensures iterations == 0 ==> r == 0
    ensures iterations > 0 ==> r as int * iterations as int <= totalMs as int < (r as int + 1) * iterations as int
  {
    if iterations == 0 then 0 else totalMs / iterations
  }

  /** Where the average as written is defined, the guarded one agrees with it. */
  lemma AverageAgreesWhenDefined(totalMs: u32, iterations: u32)
    requires iterations > 0
    ensures BenchmarkAverageAsWritten(totalMs, iterations) == Some(BenchmarkAverage(totalMs, iterations))
  {
  }

  /** A search engine that finds a one-edge path whatever was done before. */
  function FoundAtOnce(h: seq<Event>): Path
  {
    [PathInfo(0, 0)]
  }

  /**
   * `--multi-run 0` with a route that is found reaches the division by zero:
   * the first pass already succeeds, so `PathTest` builds the trip and runs
   * the benchmark with zero iterations, whose average as written is undefined.
   */
  lemma ZeroIterationsDivideByZero(h: seq<Event>, allowMultiPass: bool, usingAstar: bool, elapsed: nat -> u32)
    ensures var a := Passes(h, allowMultiPass, usingAstar, FoundAtOnce);
            && a.passes == 1 && |a.result| > 0
            && BenchmarkAverageAsWritten(TotalMs(elapsed, 0), 0).None?
  {
  }

  /** What `PathTest` reports of the benchmark loop: nothing, or the average computed after it. */
  datatype Benchmarked = NotRun | Ran(average: Option<u32>)

  /**
   * The benchmark loop: repeat the search `iterations` times, clearing after
   * each, summing the measured times, then dividing by `iterations`.
   */
  method RunBenchmark(session: SearchSession, oracle: Oracle, iterations: u32, elapsed: nat -> u32)
    returns (average: Option<u32>)
    modifies session
    ensures session.log == old(session.log) + Benchmark(iterations as nat)
    ensures average == BenchmarkAverageAsWritten(TotalMs(elapsed, iterations as nat), iterations)
  {
    var totalMs: u32 := 0;
    var i: u32 := 0;
    while i < iterations
      invariant i <= iterations
      invariant session.log == old(session.log) + Benchmark(i as nat)
      invariant totalMs == TotalMs(elapsed, i as nat)
    {
      var repeated := session.GetBestPath(oracle);
      totalMs := WrapAdd(totalMs, elapsed(i as nat));
      session.Clear();
      i := i + 1;
    }
    average := BenchmarkAverageAsWritten(totalMs, iterations);
  }

  /** Lines 88-101: the first pass and, if needed and allowed, the relaxed pass. */
  method EarlyPassesOf(session: SearchSession, data: PathStatistics, oracle: Oracle, usingAstar: bool)
    returns (pathedges: Path)
    modifies session, data`passes
    ensures var a := EarlyPasses(old(session.log), session.allowMultiPass, usingAstar, oracle);
            && pathedges == a.result
            && session.log == old(session.log) + a.events
            && data.passes as int == (old(data.passes) as int + a.passes) % U32_LIMIT
  {
    ghost var h := session.log;
    pathedges := session.GetBestPath(oracle);
    data.IncPasses();
    if |pathedges| == 0 {
      if session.allowMultiPass {
        session.Clear();
        var expansionWithinFactor := ExpansionWithinFactor(usingAstar);
        session.RelaxHierarchyLimits(usingAstar, expansionWithinFactor);
        assert session.log == h + ([Searched] + RelaxStep(usingAstar));
        pathedges := session.GetBestPath(oracle);
        data.IncPasses();
        WrapStep(old(data.passes) as int, 1);
      }
    }
  }

  /** Lines 88-116: the early passes and, for A* only, the pass with highway transitions disabled. */
  method AllPassesOf(session: SearchSession, data: PathStatistics, oracle: Oracle, usingAstar: bool)
    returns (pathedges: Path)
    modifies session, data`passes
    ensures var a := Passes(old(session.log), session.allowMultiPass, usingAstar, oracle);
            && pathedges == a.result
            && session.log == old(session.log) + a.events
            && data.passes as int == (old(data.passes) as int + a.passes) % U32_LIMIT
  {
    ghost var h := session.log;
    ghost var early := EarlyPasses(h, session.allowMultiPass, usingAstar, oracle);
    pathedges := EarlyPassesOf(session, data, oracle, usingAstar);
    if |pathedges| == 0 && usingAstar {
      session.DisableHighwayTransitions();
      session.Clear();
      assert session.log == h + (early.events + RestrictStep);
      pathedges := session.GetBestPath(oracle);
      data.IncPasses();
      WrapStep(old(data.passes) as int, early.passes);
    }
  }

  /**
   * `PathTest`: run the selected algorithm; on an empty result retry with
   * relaxed hierarchy limits when the costing allows it; on a still empty
   * result retry with highway transitions disabled, but only for A*. Each of
   * these retry-pass calls of `GetBestPath` increments `data.passes`. After a
   * successful build the algorithm is cleared and, with `multiRun`, the
   * benchmark loop runs and its average is computed.
   */
  method PathTest(session: SearchSession, data: PathStatistics, oracle: Oracle,
                  multiRun: bool, iterations: u32, elapsed: nat -> u32, usingAstar: bool)
    returns (trip: Trip, bench: Benchmarked)
    modifies session, data`passes
    ensures var a := Passes(old(session.log), session.allowMultiPass, usingAstar, oracle);
            && trip == (if |a.result| > 0 then Built(a.result) else EmptyTrip)
            && session.log == old(session.log) + a.events
                              + (if trip.Built? then [Cleared] else [])
                              + (if trip.Built? && multiRun then Benchmark(iterations as nat) else [])
            && data.passes as int == (old(data.passes) as int + a.passes) % U32_LIMIT
    ensures bench == if trip.Built? && multiRun
                     then Ran(BenchmarkAverageAsWritten(TotalMs(elapsed, iterations as nat), iterations))
                     else NotRun
    ensures trip.Built? && multiRun && iterations == 0 ==> bench == Ran(None)
  {
    bench := NotRun;
    var pathedges := AllPassesOf(session, data, oracle, usingAstar);
    if |pathedges| == 0 {
      return EmptyTrip, NotRun;
    }
    trip := Built(pathedges);
    session.Clear();
    if multiRun {
      var average := RunBenchmark(session, oracle, iterations, elapsed);
      bench := Ran(average);
    }
  }
}
