/**
 * The decision blocks of the route driver's `main`: finding the locations,
 * the connectivity fast-reject, the choice of path algorithm and the
 * classification of a failed leg.
 */
module Driver {
  import opened Wrappers
  import opened Statistics

  /** A graph edge id (`GraphId`), opaque here. */
  type EdgeId = nat

  /** One candidate correlation of a location: an edge and the fraction along it. */
  datatype CandidateEdge = CandidateEdge(id: EdgeId, dist: real)

  /** A correlated location (`PathLocation`): its candidate edges. */
  datatype PathLocation = PathLocation(edges: seq<CandidateEdge>)

  /** The three path algorithms the driver owns. */
  datatype Algorithm = AStar | Bidirectional | MultiModal

  // ---------------------------------------------------------------------------
  // Finding the locations (lines 607-616)
  // ---------------------------------------------------------------------------

  /**
   * Correlate every location in order; `search` stands for loki's `Search`,
   * with `None` for a search that throws. The first failure, for any of the
   * locations, ends the request as `fail_invalid_origin`.
   */
  method FindLocations<L>(locations: seq<L>, search: L -> Option<PathLocation>)
    returns (r: Result<seq<PathLocation>, Status>)
    ensures r.Failure? <==> exists i :: 0 <= i < |locations| && search(locations[i]).None?
    ensures r.Failure? ==> r.error == FailInvalidOrigin
    ensures r.Success? ==> |r.value| == |locations|
                           && forall i :: 0 <= i < |locations| ==> search(locations[i]) == Some(r.value[i])
  {
    var found: seq<PathLocation> := [];
    var i := 0;
    while i < |locations|
      invariant 0 <= i <= |locations|
      invariant |found| == i
      invariant forall j :: 0 <= j < i ==> search(locations[j]) == Some(found[j])
    {
      var s := search(locations[i]);
      if s.None? {
        return Failure(FailInvalidOrigin);
      }
      found := found + [s.value];
      i := i + 1;
    }
    return Success(found);
  }

  // ---------------------------------------------------------------------------
  // Connectivity fast-reject (lines 621-644)
  // ---------------------------------------------------------------------------

  /** The histogram of colour ids: each colour that occurs, with its number of occurrences. */
  method CountColors(colors: seq<nat>) returns (counts: map<nat, nat>)
    ensures forall c :: c in counts <==> c in colors
    ensures forall c :: c in counts ==> counts[c] == multiset(colors)[c]
  {
    counts := map[];
    var i := 0;
    while i < |colors|
      invariant 0 <= i <= |colors|
      invariant forall c :: c in counts <==> c in colors[..i]
      invariant forall c :: c in counts ==> counts[c] == multiset(colors[..i])[c]
    {
      var color := colors[i];
      assert colors[..i + 1] == colors[..i] + [color];
      if color !in counts {
        counts := counts[color := 1];
      } else {
        counts := counts[color := counts[color] + 1];
      }
      i := i + 1;
    }
    assert colors[..i] == colors;
  }

  /** Some region holds exactly as many colour hits as there are locations. */
  ghost predicate Connected(colors: seq<nat>, locationCount: nat)
  {
    exists c :: c in colors && multiset(colors)[c] == locationCount
  }

  /** Scan the histogram, stopping at the first count equal to the number of locations. */
  method AnyCountEquals(counts: map<nat, nat>, target: nat) returns (found: bool)
    ensures found <==> exists c :: c in counts && counts[c] == target
  {
    found := false;
    var remaining := counts.Keys;
    while remaining != {}
      invariant remaining <= counts.Keys
      invariant forall c :: c in counts.Keys - remaining ==> counts[c] != target
      decreases remaining
    {
      var c :| c in remaining;
      if counts[c] == target {
        found := true;
        break;
      }
      remaining := remaining - {c};
    }
  }

  /** The fast-reject: the request is connected when some colour count equals the number of locations. */
  method IsConnected(colors: seq<nat>, locationCount: nat) returns (connected: bool)
    ensures connected <==> Connected(colors, locationCount)
  {
    var counts := CountColors(colors);
    connected := AnyCountEquals(counts, locationCount);
  }

  /** No colour occurs twice in the list. */
  predicate Distinct(colors: seq<nat>)
  {
    forall i, j :: 0 <= i < j < |colors| ==> colors[i] != colors[j]
  }

  lemma {:induction false} DistinctOccursOnce(colors: seq<nat>, c: nat)
    requires Distinct(colors)
    ensures multiset(colors)[c] <= 1
  {
    if colors != [] {
      var rest := colors[1..];
      assert colors == [colors[0]] + rest;
      DistinctOccursOnce(rest, c);
      if colors[0] == c {
        assert c !in rest;
      }
    }
  }

  /**
   * As written, only the colours around the last location are counted. When
   * that list names each colour once (as the set of regions around one
   * location does), no count can reach two, so a request with two or more
   * locations is always rejected.
   */
  lemma DistinctColorsNeverConnect(colors: seq<nat>, locationCount: nat)
    requires Distinct(colors) && locationCount >= 2
    ensures !Connected(colors, locationCount)
  {
    forall c | c in colors
      ensures multiset(colors)[c] != locationCount
    {
      DistinctOccursOnce(colors, c);
    }
  }

  /** The number of locations whose region set holds colour `c`. */
  function Hits(regions: seq<set<nat>>, c: nat): (n: nat)
    ensures n <= |regions|
  {
    if regions == [] then 0
    else Hits(regions[..|regions| - 1], c) + (if c in regions[|regions| - 1] then 1 else 0)
  }

  /** A colour reaches the full count exactly when every location's region set holds it. */
  lemma {:induction false} HitsAll(regions: seq<set<nat>>, c: nat)
    ensures Hits(regions, c) == |regions| <==> SharedByAll(regions, c)
  {
    if regions != [] {
      var init := regions[..|regions| - 1];
      HitsAll(init, c);
      assert forall i :: 0 <= i < |init| ==> init[i] == regions[i];
    }
  }

  /** Every location's region set holds colour `c`. */
  predicate SharedByAll(regions: seq<set<nat>>, c: nat)
  {
    forall i :: 0 <= i < |regions| ==> c in regions[i]
  }

  /**
   * The evidently intended fast-reject: count, for each colour, the locations
   * whose region set holds it, and accept when some colour is counted for
   * every location.
   */
  method IsConnectedAcross(regions: seq<set<nat>>) returns (connected: bool)
    ensures connected <==> exists c :: SharedByAll(regions, c)
  {
    var counts: map<nat, nat> := map[];
    for i := 0 to |regions|
      invariant forall c :: c !in counts ==> Hits(regions[..i], c) == 0
      invariant forall c :: c in counts ==> counts[c] == Hits(regions[..i], c)
    {
      assert regions[..i + 1][..i] == regions[..i];
      var todo := regions[i];
      while todo != {}
        invariant todo <= regions[i]
        invariant forall c :: c !in counts ==> Hits(regions[..i], c) == 0 && c !in regions[i] - todo
        invariant forall c :: c in counts ==>
                    counts[c] == Hits(regions[..i], c) + (if c in regions[i] - todo then 1 else 0)
        decreases todo
      {
        var c :| c in todo;
        if c !in counts {
          counts := counts[c := 1];
        } else {
          counts := counts[c := counts[c] + 1];
        }
        todo := todo - {c};
      }
    }
    assert regions[..|regions|] == regions;
    if |regions| == 0 {
      connected := true;  // every colour is vacuously shared; the empty request has no legs
      assert SharedByAll(regions, 0);
    } else {
      connected := AnyCountEquals(counts, |regions|);
      if connected {
        var c :| c in counts && counts[c] == |regions|;
        HitsAll(regions, c);
      } else {
        forall c ensures !SharedByAll(regions, c) {
          HitsAll(regions, c);
        }
      }
    }
  }

  // ---------------------------------------------------------------------------
  // Choice of path algorithm (lines 655-673)
  // ---------------------------------------------------------------------------

  /** Some origin candidate lies on the same edge as some destination candidate. */
  predicate SharesEdge(origin: PathLocation, dest: PathLocation)
  {
    exists i, j :: 0 <= i < |origin.edges| && 0 <= j < |dest.edges| && origin.edges[i].id == dest.edges[j].id
  }

  /**
   * `multimodal` selects the multimodal search and `pedestrian` the
   * bidirectional one; any other route type selects the bidirectional search
   * unless an origin and a destination candidate share an edge, in which case
   * it selects A*.
   */
  method ChooseAlgorithm(routetype: string, origin: PathLocation, dest: PathLocation) returns (alg: Algorithm)
    ensures routetype == "multimodal" ==> alg == MultiModal
    ensures routetype == "pedestrian" ==> alg == Bidirectional
    ensures routetype != "multimodal" && routetype != "pedestrian" ==>
              alg != MultiModal && (alg == AStar <==> SharesEdge(origin, dest))
  {
    if routetype == "multimodal" {
      alg := MultiModal;
    } else if routetype == "pedestrian" {
      alg := Bidirectional;
    } else {
      alg := Bidirectional;
      var i := 0;
      while i < |origin.edges|
        invariant 0 <= i <= |origin.edges|
        invariant alg != MultiModal
        invariant alg == AStar <==> exists i', j :: 0 <= i' < i && 0 <= j < |dest.edges| && origin.edges[i'].id == dest.edges[j].id
      {
        var j := 0;
        while j < |dest.edges|
          invariant 0 <= j <= |dest.edges|
          invariant alg != MultiModal
          invariant alg == AStar <==>
                      (exists i', j' :: 0 <= i' < i && 0 <= j' < |dest.edges| && origin.edges[i'].id == dest.edges[j'].id)
                      || (exists j' :: 0 <= j' < j && origin.edges[i].id == dest.edges[j'].id)
        {
          if origin.edges[i].id == dest.edges[j].id {
            alg := AStar;
          }
          j := j + 1;
        }
        i := i + 1;
      }
    }
  }

  // ---------------------------------------------------------------------------
  // Classification of a failed leg (lines 700-737)
  // ---------------------------------------------------------------------------

  /** Some candidate edge of the location is structurally unreachable. */
  predicate AnyUnreachable(loc: PathLocation, unreachable: EdgeId -> bool)
  {
    exists i :: 0 <= i < |loc.edges| && unreachable(loc.edges[i].id)
  }

  /**
   * Scan the candidate edges of one location; `unreachable` stands for the
   * tile lookup `directededge(id)->unreachable()`.
   */
  method ScanUnreachable(loc: PathLocation, unreachable: EdgeId -> bool) returns (flag: bool)
    ensures flag <==> AnyUnreachable(loc, unreachable)
  {
    flag := false;
    for i := 0 to |loc.edges|
      invariant flag <==> exists k :: 0 <= k < i && unreachable(loc.edges[k].id)
    {
      if unreachable(loc.edges[i].id) {
        flag := true;
      }
    }
  }

  /** The outcome of a leg whose trip is empty. */
  method ClassifyFailure(origin: PathLocation, dest: PathLocation, unreachable: EdgeId -> bool)
    returns (status: Status)
    ensures var uo, ud := AnyUnreachable(origin, unreachable), AnyUnreachable(dest, unreachable);
            && (status == FailUnreachableLocations <==> uo && ud)
            && (status == FailUnreachableOrigin <==> uo && !ud)
            && (status == FailUnreachableDest <==> !uo && ud)
            && (status == FailNoRoute <==> !uo && !ud)
  {
    var unreachableOrigin := ScanUnreachable(origin, unreachable);
    var unreachableDest := ScanUnreachable(dest, unreachable);
    if unreachableOrigin && unreachableDest {
      status := FailUnreachableLocations;
    } else if unreachableOrigin {
      status := FailUnreachableOrigin;
    } else if unreachableDest {
      status := FailUnreachableDest;
    } else {
      status := FailNoRoute;
    }
  }

  /** Lines 700-737: classify a leg whose trip is empty and store the outcome in the record. */
  method RecordFailedLeg(data: PathStatistics, origin: PathLocation, dest: PathLocation, unreachable: EdgeId -> bool)
    returns (status: Status)
    modifies data`success
    ensures data.success == Label(status)
    ensures var uo, ud := AnyUnreachable(origin, unreachable), AnyUnreachable(dest, unreachable);
            && (status == FailUnreachableLocations <==> uo && ud)
            && (status == FailUnreachableOrigin <==> uo && !ud)
            && (status == FailUnreachableDest <==> !uo && ud)
            && (status == FailNoRoute <==> !uo && !ud)
  {
    status := ClassifyFailure(origin, dest, unreachable);
    data.RecordOutcome(status);
  }
}
