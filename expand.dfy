/** `expand_values`, which both directive classes define identically: it
    lists the values of a `consumes` or `produces` field on one line. */
module ExpandValues {
  import opened Outcomes
  import opened PyJson

  /** Each value followed by one space, in order. */
  function Expanded(values: seq<string>): string
  {
    if values == [] then "" else values[0] + " " + Expanded(values[1..])
  }

  lemma {:induction false} ExpandedSnoc(values: seq<string>, v: string)
    ensures Expanded(values + [v]) == Expanded(values) + v + " "
  {
    if values != [] {
      assert (values + [v])[1..] == values[1..] + [v];
      ExpandedSnoc(values[1..], v);
    }
  }

  /** `value + ' '` raises TypeError unless the value is a string. */
  function AsString(j: Json): (r: Outcome<string>)
    ensures r.Ok? <==> j.Str?
  {
    if j.Str? then Ok(j.s) else Raised
  }

  /** What `expand_values(values)` returns: it iterates `values` the way
      Python does (a string by its characters, a dict by its keys) and
      raises on anything it cannot iterate or on a value that is not a
      string. */
  function Expand(values: Json): Outcome<string>
  {
    var elems :- Elements(values);
    var strs :- MapAll(AsString, elems);
    Ok(Expanded(strs))
  }

  /** A list of strings expands to those strings, each followed by a
      space. */
  lemma ExpandStrings(values: seq<string>)
    ensures Expand(Arr(seq(|values|, i requires 0 <= i < |values| => Str(values[i])))) == Ok(Expanded(values))
  {
    var items := seq(|values|, i requires 0 <= i < |values| => Str(values[i]));
    MapAllOk(AsString, items);
    assert MapAll(AsString, items).value == values;
  }

  method ExpandValues(values: Json) returns (r: Outcome<string>)
    ensures r == Expand(values)
    ensures values == Arr([]) || values == Str("") ==> r == Ok("")
  {
    var elems := Elements(values);
    if elems.Raised? {
      return Raised;
    }
    var items := elems.value;
    var expanded := "";
    ghost var done: seq<string> := [];
    for i := 0 to |items|
      invariant MapAll(AsString, items[..i]) == Ok(done)
      invariant expanded == Expanded(done)
    {
      var value := items[i];
      if !value.Str? {
        MapAllOk(AsString, items);
        return Raised;
      }
      assert items[..i + 1] == items[..i] + [value];
      MapAllSnoc(AsString, items[..i], value);
      ExpandedSnoc(done, value.s);
      expanded := expanded + value.s + " ";
      done := done + [value.s];
    }
    assert items[..|items|] == items;
    return Ok(expanded);
  }

  /** The position of the first space, or the length when there is none. */
  function SpaceIndex(s: string): (k: nat)
    ensures k <= |s|
    ensures k < |s| ==> s[k] == ' '
    ensures forall i :: 0 <= i < k ==> s[i] != ' '
  {
    if s == [] then 0 else if s[0] == ' ' then 0 else 1 + SpaceIndex(s[1..])
  }

  /** Splitting a line of space-terminated values back into the values. */
  function Unexpand(s: string): seq<string>
    decreases |s|
  {
    if s == [] then []
    else
      var k := SpaceIndex(s);
      if k == |s| then [s] else [s[..k]] + Unexpand(s[k + 1..])
  }

  /** The expanded line loses nothing: values without spaces are
      recovered from it, in order. */
  lemma {:induction false} UnexpandExpanded(values: seq<string>)
    requires forall i :: 0 <= i < |values| ==> ' ' !in values[i]
    ensures Unexpand(Expanded(values)) == values
  {
    if values != [] {
      var v := values[0];
      var s := Expanded(values);
      assert s == v + " " + Expanded(values[1..]);
      var k := SpaceIndex(s);
      assert s[|v|] == ' ';
      assert k == |v|;
      assert s[..k] == v;
      assert s[k + 1..] == Expanded(values[1..]);
      UnexpandExpanded(values[1..]);
    }
  }
}
