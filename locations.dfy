/**
 * Locations as the driver reads them: the six address fields joined by
 * `std::to_string(Location)`, and the placement of the request's date and
 * time on the first or last location.
 */
module Locations {
  import opened Wrappers

  /** The parts of a location the driver reads or writes; coordinates, stop type and heading are left out. */
  datatype Location = Location(name: string, street: string, city: string, state: string,
                               zip: string, country: string, dateTime: Option<string>)

  /** The address fields in the order `to_string` visits them. */
  function AddressFields(l: Location): (fields: seq<string>)
    ensures |fields| == 6
  {
    [l.name, l.street, l.city, l.state, l.zip, l.country]
  }

  // ---------------------------------------------------------------------------
  // to_string(Location) (lines 155-164)
  // ---------------------------------------------------------------------------

  /** Each field followed by a comma. */
  function Terminated(fields: seq<string>): (s: string)
  {
    if fields == [] then [] else Terminated(fields[..|fields| - 1]) + fields[|fields| - 1] + [',']
  }

  /** The fields separated by single commas. */
  function Join(fields: seq<string>): (s: string)
    requires |fields| > 0
  {
    if |fields| == 1 then fields[0] else Join(fields[..|fields| - 1]) + [','] + fields[|fields| - 1]
  }

  lemma {:induction false} TerminatedIsJoinPlusComma(fields: seq<string>)
    requires |fields| > 0
    ensures Terminated(fields) == Join(fields) + [',']
  {
    var init := fields[..|fields| - 1];
    if |fields| == 1 {
      assert init == [];
    } else {
      TerminatedIsJoinPlusComma(init);
    }
  }

  /**
   * Append every address field and a comma, then erase the trailing comma:
   * the six fields joined by commas.
   */
  method ToString(l: Location) returns (s: string)
    ensures s == Join(AddressFields(l))
  {
    var fields := AddressFields(l);
    s := [];
    for i := 0 to |fields|
      invariant s == Terminated(fields[..i])
    {
      assert fields[..i + 1][..i] == fields[..i];
      s := s + fields[i];
      s := s + [','];
    }
    assert fields[..|fields|] == fields;
    TerminatedIsJoinPlusComma(fields);
    s := s[..|s| - 1];
  }

  /** Cut a string at every comma. */
  function Split(s: string): (parts: seq<string>)
    ensures |parts| > 0
  {
    if s == [] then [[]]
    else
      var init := Split(s[..|s| - 1]);
      if s[|s| - 1] == ',' then init + [[]]
      else init[..|init| - 1] + [init[|init| - 1] + [s[|s| - 1]]]
  }

  lemma {:induction false} SplitAppendField(s: string, field: string)
    requires ',' !in field
    ensures Split(s + field) == Split(s)[..|Split(s)| - 1] + [Split(s)[|Split(s)| - 1] + field]
    decreases |field|
  {
    if field == [] {
      assert s + field == s;
      var whole := Split(s);
      assert whole[|whole| - 1] + field == whole[|whole| - 1];
      assert whole[..|whole| - 1] + [whole[|whole| - 1]] == whole;
    } else {
      var init := field[..|field| - 1];
      var c := field[|field| - 1];
      assert ',' !in init && c != ',';
      assert (s + field)[..|s + field| - 1] == s + init;
      assert (s + field)[|s + field| - 1] == c;
      SplitAppendField(s, init);
      var whole := Split(s);
      var i := Split(s + init);
      assert i[..|i| - 1] == whole[..|whole| - 1];
      assert i[|i| - 1] + [c] == whole[|whole| - 1] + field;
    }
  }

  /** When no field holds a comma, cutting the joined text at its commas gives the fields back. */
  lemma {:induction false} SplitJoin(fields: seq<string>)
    requires |fields| > 0
    requires forall i :: 0 <= i < |fields| ==> ',' !in fields[i]
    ensures Split(Join(fields)) == fields
  {
    var last := fields[|fields| - 1];
    if |fields| == 1 {
      SplitJoinSingle(last);
      assert [last] == fields;
    } else {
      var init := fields[..|fields| - 1];
      SplitJoin(init);
      SplitJoinStep(init, last);
      assert init + [last] == fields;
    }
  }

  /** A single comma-free field splits back into itself. */
  lemma SplitJoinSingle(field: string)
    requires ',' !in field
    ensures Split(Join([field])) == [field]
  {
    SplitAppendField([], field);
    assert [] + field == field;
  }

  /** One more comma-free field after a text that splits back into its fields. */
  lemma SplitJoinStep(init: seq<string>, last: string)
    requires |init| > 0 && ',' !in last
    requires Split(Join(init)) == init
    ensures Split(Join(init + [last])) == init + [last]
  {
    var prefix := Join(init) + [','];
    JoinSnoc(init, last);
    SplitComma(Join(init));
    SplitAppendField(prefix, last);
    assert (init + [[]])[..|init|] == init;
    assert [] + last == last;
  }

  /** Joining one more field adds a comma and the field. */
  lemma JoinSnoc(init: seq<string>, last: string)
    requires |init| > 0
    ensures Join(init + [last]) == Join(init) + [','] + last
  {
    var fields := init + [last];
    assert fields[..|fields| - 1] == init;
  }

  /** A trailing comma opens a new, empty part. */
  lemma SplitComma(s: string)
    ensures Split(s + [',']) == Split(s) + [[]]
  {
    var t := s + [','];
    assert t[..|t| - 1] == s;
  }

  /** The text of a location reads back as its six address fields when none holds a comma. */
  lemma LocationTextRoundTrip(l: Location)
    requires forall i :: 0 <= i < 6 ==> ',' !in AddressFields(l)[i]
    ensures Split(Join(AddressFields(l))) == AddressFields(l)
  {
    SplitJoin(AddressFields(l));
  }

  // ---------------------------------------------------------------------------
  // date_time placement (lines 509-520)
  // ---------------------------------------------------------------------------

  /** The `date_time` object of a request: its `type` and optional `value`. */
  datatype DateTime = DateTime(dateTimeType: int, value: Option<string>)

  function WithDateTime(l: Location, d: Option<string>): Location
  {
    l.(dateTime := d)
  }

  /**
   * Type 0 (current) marks the first location with "current", type 1 (depart
   * at) gives it the value, type 2 (arrive by) gives the last location the
   * value; any other type and an absent `date_time` change nothing. The source
   * reads locations only after checking that there are at least two.
   */
  function PlaceDateTime(locations: seq<Location>, dt: Option<DateTime>): (r: seq<Location>)
    requires |locations| >= 2
    ensures |r| == |locations|
    ensures forall i :: 0 < i < |locations| - 1 ==> r[i] == locations[i]
    ensures r[0] == (if dt.Some? && dt.value.dateTimeType == 0 then WithDateTime(locations[0], Some("current"))
                     else if dt.Some? && dt.value.dateTimeType == 1 then WithDateTime(locations[0], dt.value.value)
                     else locations[0])
    ensures r[|r| - 1] == (if dt.Some? && dt.value.dateTimeType == 2
                           then WithDateTime(locations[|r| - 1], dt.value.value)
                           else locations[|r| - 1])
  {
    match dt
    case None => locations
    case Some(DateTime(t, value)) =>
      if t == 0 then locations[0 := WithDateTime(locations[0], Some("current"))]
      else if t == 1 then locations[0 := WithDateTime(locations[0], value)]
      else if t == 2 then locations[|locations| - 1 := WithDateTime(locations[|locations| - 1], value)]
      else locations
  }

  /**
   * Placing the date and time never touches an address field, and the only
   * location it can change is the first (types 0 and 1) or the last (type 2).
   */
  lemma PlaceDateTimeKeepsAddresses(locations: seq<Location>, dt: Option<DateTime>)
    requires |locations| >= 2
    ensures var r := PlaceDateTime(locations, dt);
            && (forall i :: 0 <= i < |r| ==> AddressFields(r[i]) == AddressFields(locations[i]))
            && (forall i :: 0 <= i < |r| && r[i] != locations[i] ==>
                  dt.Some? && ((i == 0 && dt.value.dateTimeType in {0, 1})
                               || (i == |r| - 1 && dt.value.dateTimeType == 2)))
  {
  }
}
