/**
 * Command-line argument handling of the route driver that is not option
 * parsing itself: the mandatory arguments when no JSON request is given and
 * the lower-casing of the route type.
 */
module Arguments {
  import opened Wrappers

  /** The arguments required when `--json` is absent, in the order they are checked. */
  const Mandatory: seq<string> := ["origin", "destination", "type", "config"]

  /**
   * Lines 460-471: the message written for the first mandatory argument that
   * was not provided, if any; the driver then exits with a failure.
   */
  method CheckMandatory(provided: set<string>) returns (error: Option<string>)
    ensures error.None? <==> forall i :: 0 <= i < |Mandatory| ==> Mandatory[i] in provided
    ensures error.Some? ==>
              exists i :: 0 <= i < |Mandatory| && error.value == MissingMessage(Mandatory[i])
                          && Mandatory[i] !in provided
                          && forall j :: 0 <= j < i ==> Mandatory[j] in provided
  {
    for i := 0 to |Mandatory|
      invariant forall j :: 0 <= j < i ==> Mandatory[j] in provided
    {
      if Mandatory[i] !in provided {
        return Some(MissingMessage(Mandatory[i]));
      }
    }
    return None;
  }

  /** The message written for a missing mandatory argument; it names the argument. */
  function MissingMessage(arg: string): (m: string)
    ensures 5 + |arg| < |m| && m[5..5 + |arg|] == arg
  {
    "The <" + arg + "> argument was not provided, but is mandatory when json is not provided\n\n"
  }

  predicate IsUpper(c: char)
  {
    'A' <= c <= 'Z'
  }

  /** `std::tolower` in the "C" locale: only the ASCII capitals change. */
  function ToLower(c: char): (r: char)
    ensures !IsUpper(r)
    ensures IsUpper(c) ==> r as int == c as int + 32
    ensures !IsUpper(c) ==> r == c
  {
    if IsUpper(c) then (c as int + 32) as char else c
  }

  /** A string with every character lower-cased. */
  function Lowered(s: string): (r: string)
    ensures |r| == |s| && forall i :: 0 <= i < |s| ==> r[i] == ToLower(s[i])
  {
    seq(|s|, i requires 0 <= i < |s| => ToLower(s[i]))
  }

  /** Lines 577-578: lower-case the route type one character at a time. */
  method LowerCase(routetype: string) returns (r: string)
    ensures r == Lowered(routetype)
  {
    r := routetype;
    for i := 0 to |r|
      invariant |r| == |routetype|
      invariant forall k :: 0 <= k < i ==> r[k] == ToLower(routetype[k])
      invariant forall k :: i <= k < |r| ==> r[k] == routetype[k]
    {
      r := r[i := ToLower(r[i])];
    }
  }

  /** Lower-casing twice is lower-casing once, and the result holds no capital. */
  lemma LoweredIdempotent(s: string)
    ensures Lowered(Lowered(s)) == Lowered(s)
    ensures forall i :: 0 <= i < |s| ==> !IsUpper(Lowered(s)[i])
  {
  }
}
