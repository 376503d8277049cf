/**
 * `get_costing`: the options of one costing method are the configured ones
 * under `costing_options.<name>`, with every option of the same name in the
 * request merged over them.
 */
module CostingOptions {
  import opened Wrappers

  /** A property-tree node: its data and its ordered, possibly repeated, children. */
  datatype Value = Value(data: string, children: seq<(string, Value)>)

  /** The options of one costing method, by option name. */
  type Options = map<string, Value>

  /** The keys that occur in an ordered list of request options. */
  function KeysOf(overrides: seq<(string, Value)>): set<string>
  {
    set i | 0 <= i < |overrides| :: overrides[i].0
  }

  /** The value of the last request option named `k`. */
  function LastValue(overrides: seq<(string, Value)>, k: string): (v: Value)
    requires k in KeysOf(overrides)
    ensures exists i :: 0 <= i < |overrides| && overrides[i] == (k, v)
                        && forall j :: i < j < |overrides| ==> overrides[j].0 != k
  {
    var last := overrides[|overrides| - 1];
    if last.0 == k then last.1
    else
      assert k in KeysOf(overrides[..|overrides| - 1]) by {
        var i :| 0 <= i < |overrides| && overrides[i].0 == k;
        assert overrides[..|overrides| - 1][i] == overrides[i];
      }
      LastValue(overrides[..|overrides| - 1], k)
  }

  /**
   * `put_child` of each request option in turn: an option already present is
   * replaced, a new one is added.
   */
  function Merge(base: Options, overrides: seq<(string, Value)>): (r: Options)
    ensures r.Keys == base.Keys + KeysOf(overrides)
    ensures forall k :: k in KeysOf(overrides) ==> r[k] == LastValue(overrides, k)
    ensures forall k :: k in base && k !in KeysOf(overrides) ==> r[k] == base[k]
  {
    if overrides == [] then base
    else
      var init := overrides[..|overrides| - 1];
      var last := overrides[|overrides| - 1];
      assert KeysOf(overrides) == KeysOf(init) + {last.0} by {
        assert forall i :: 0 <= i < |init| ==> init[i] == overrides[i];
      }
      Merge(base, init)[last.0 := last.1]
  }

  /** One more `put_child` extends the merge by one option. */
  lemma MergeStep(base: Options, overrides: seq<(string, Value)>, i: nat)
    requires i < |overrides|
    ensures Merge(base, overrides[..i + 1]) == Merge(base, overrides[..i])[overrides[i].0 := overrides[i].1]
  {
    assert overrides[..i + 1][..i] == overrides[..i];
  }

  /** Request options whose names do not repeat. */
  predicate DistinctKeys(overrides: seq<(string, Value)>)
  {
    forall i, j :: 0 <= i < j < |overrides| ==> overrides[i].0 != overrides[j].0
  }

  /** Request options with distinct names, read as a map. */
  function AsMap(overrides: seq<(string, Value)>): (m: Options)
    requires DistinctKeys(overrides)
    ensures m.Keys == KeysOf(overrides)
    ensures forall i :: 0 <= i < |overrides| ==> m[overrides[i].0] == overrides[i].1
  {
    map i | 0 <= i < |overrides| :: overrides[i].0 := overrides[i].1
  }

  lemma LastValueDistinct(overrides: seq<(string, Value)>, i: nat)
    requires DistinctKeys(overrides) && i < |overrides|
    ensures LastValue(overrides, overrides[i].0) == overrides[i].1
  {
    var k := overrides[i].0;
    var v := LastValue(overrides, k);
    var j :| 0 <= j < |overrides| && overrides[j] == (k, v)
             && forall j' :: j < j' < |overrides| ==> overrides[j'].0 != k;
    assert j == i;
  }

  /** With option names that do not repeat, the merge is a map union that prefers the request. */
  lemma MergeIsUnion(base: Options, overrides: seq<(string, Value)>)
    requires DistinctKeys(overrides)
    ensures Merge(base, overrides) == base + AsMap(overrides)
  {
    var r := Merge(base, overrides);
    var u := base + AsMap(overrides);
    forall k | k in r
      ensures k in u && r[k] == u[k]
    {
      MergeAt(base, overrides, k);
    }
    assert r.Keys == u.Keys;
    MapsAgree(r, u);
  }

  /** Two maps with the same keys and the same value at each key are equal. */
  lemma MapsAgree(r: Options, u: Options)
    requires r.Keys == u.Keys
    requires forall k :: k in r ==> r[k] == u[k]
    ensures r == u
  {
  }

  lemma MergeAt(base: Options, overrides: seq<(string, Value)>, k: string)
    requires DistinctKeys(overrides) && k in Merge(base, overrides)
    ensures Merge(base, overrides)[k] == (base + AsMap(overrides))[k]
  {
    if k in KeysOf(overrides) {
      var i := KeyIndex(overrides, k);
      LastValueDistinct(overrides, i);
    } else {
      assert k !in AsMap(overrides);
    }
  }

  lemma KeyIndex(overrides: seq<(string, Value)>, k: string) returns (i: nat)
    requires k in KeysOf(overrides)
    ensures i < |overrides| && overrides[i].0 == k
  {
    i :| 0 <= i < |overrides| && overrides[i].0 == k;
  }

  /** Merging the same request options twice changes nothing more. */
  lemma MergeIdempotent(base: Options, overrides: seq<(string, Value)>)
    ensures Merge(Merge(base, overrides), overrides) == Merge(base, overrides)
  {
  }

  /**
   * The configuration, as far as `get_costing` reads and writes it: the
   * subtree of each costing method under `costing_options`.
   */
  class Config {
    var costingOptions: map<string, Options>

    constructor (costingOptions: map<string, Options>)
      ensures this.costingOptions == costingOptions
    {
      this.costingOptions := costingOptions;
    }
  }

  /** The message of the exception raised for a costing method the configuration lacks. */
  function NoCostingError(costing: string): string
  {
    "No costing method found for '" + costing + "'"
  }

  /**
   * `get_costing`. A request maps a costing method to the ordered options it
   * gives for it. The merged options (what the cost factory is handed) are
   * written back into the configuration, as `put_child` does on the
   * configuration's own subtree.
   */
  method GetCosting(config: Config, request: map<string, seq<(string, Value)>>, costing: string)
    returns (r: Result<Options, string>)
    modifies config
    ensures costing !in old(config.costingOptions) ==>
              r == Failure(NoCostingError(costing)) && config.costingOptions == old(config.costingOptions)
    ensures costing in old(config.costingOptions) ==>
              var merged := Merge(old(config.costingOptions)[costing],
                                  if costing in request then request[costing] else []);
              r == Success(merged) && config.costingOptions == old(config.costingOptions)[costing := merged]
  {
    if costing !in config.costingOptions {
      return Failure(NoCostingError(costing));
    }
    if costing in request {
      var overrides := request[costing];
      for i := 0 to |overrides|
        invariant config.costingOptions == old(config.costingOptions)[costing := Merge(old(config.costingOptions)[costing], overrides[..i])]
      {
        MergeStep(old(config.costingOptions)[costing], overrides, i);
        var opts := config.costingOptions[costing];
        config.costingOptions := config.costingOptions[costing := opts[overrides[i].0 := overrides[i].1]];
      }
      assert overrides[..|overrides|] == overrides;
    }
    return Success(config.costingOptions[costing]);
  }
}
