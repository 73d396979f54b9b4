/** Appending a name unless it is empty or already there. */
module UniqueNames {
  import opened Utf8

  function WithName(values: seq<Str>, value: Str): seq<Str> {
    if value == [] || value in values then values else values + [value]
  }

  method AppendUnique(values: seq<Str>, value: Str) returns (r: seq<Str>)
    ensures r == WithName(values, value)
  {
    if value == [] {
      return values;
    }
    for i := 0 to |values|
      invariant value !in values[..i]
    {
      if values[i] == value {
        return values;
      }
    }
    return values + [value];
  }
}
