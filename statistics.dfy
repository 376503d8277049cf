/**
 * The per-run statistics record of the route driver and the outcome labels it
 * stores in it.
 */
module Statistics {

  /** One more than the largest value of a 32-bit unsigned counter. */
  const U32_LIMIT: int := 0x1_0000_0000

  /** A 32-bit unsigned integer (`uint32_t`). */
  newtype u32 = x: int | 0 <= x < 0x1_0000_0000

  /** Addition of two `uint32_t` values, wrapping around at 2^32 as C++ does. */
  function WrapAdd(a: u32, b: u32): (r: u32)
    ensures a as int + b as int < U32_LIMIT ==> r as int == a as int + b as int
    ensures a as int + b as int >= U32_LIMIT ==> r as int == a as int + b as int - U32_LIMIT
  {
    ((a as int + b as int) % U32_LIMIT) as u32
  }

  /** Incrementing a wrapped counter equals wrapping the incremented total. */
  lemma WrapStep(a: int, k: int)
    ensures ((a + k) % U32_LIMIT + 1) % U32_LIMIT == (a + k + 1) % U32_LIMIT
  {
  }

  /** The outcome of a route request, as recorded in the `success` field. */
  datatype Status =
    | Succeeded
    | FailInvalidOrigin
    | FailNoConnectivity
    | FailUnreachableLocations
    | FailUnreachableOrigin
    | FailUnreachableDest
    | FailNoRoute

  /** The exact string the driver stores for each outcome. */
  function Label(s: Status): (r: string)
    ensures r != "false"
  {
    match s
    case Succeeded => "success"
    case FailInvalidOrigin => "fail_invalid_origin"
    case FailNoConnectivity => "fail_no_connectivity"
    case FailUnreachableLocations => "fail_unreachable_locations"
    case FailUnreachableOrigin => "fail_unreachable_origin"
    case FailUnreachableDest => "fail_unreachable_dest"
    case FailNoRoute => "fail_no_route"
  }

  /** Distinct outcomes are logged under distinct labels. */
  lemma LabelInjective(s: Status, t: Status)
    ensures Label(s) == Label(t) ==> s == t
  {
  }

  /**
   * The statistics of one run. The coordinates and the two float distances of
   * the original record are not modelled (floating point).
   */
  class PathStatistics {
    var success: string
    var passes: u32
    var runtime: u32
    var tripTime: u32
    var maneuvers: u32

    /** A fresh record: not yet successful, no passes, all counters zero. */
    constructor ()
      ensures success == "false" && passes == 0 && runtime == 0
      ensures tripTime == 0 && maneuvers == 0
    {
      success := "false";
      passes := 0;
      runtime := 0;
      tripTime := 0;
      maneuvers := 0;
    }

    method SetSuccess(s: string)
      modifies this`success
      ensures success == s
    {
      success := s;
    }

    /** Store the label of an outcome, as every `setSuccess` call of the driver does. */
    method RecordOutcome(s: Status)
      modifies this`success
      ensures success == Label(s)
    {
      SetSuccess(Label(s));
    }

    /** `++passes` on a `uint32_t`. */
    method IncPasses()
      modifies this`passes
      ensures passes as int == (old(passes) as int + 1) % U32_LIMIT
    {
      passes := WrapAdd(passes, 1);
    }

    /** `runtime += msec` on a `uint32_t`. */
    method AddRuntime(msec: u32)
      modifies this`runtime
      ensures runtime as int == (old(runtime) as int + msec as int) % U32_LIMIT
    {
      runtime := WrapAdd(runtime, msec);
    }

    method SetTripTime(t: u32)
      modifies this`tripTime
      ensures tripTime == t
    {
      tripTime := t;
    }

    method SetManeuvers(n: u32)
      modifies this`maneuvers
      ensures maneuvers == n
    {
      maneuvers := n;
    }
  }
}
