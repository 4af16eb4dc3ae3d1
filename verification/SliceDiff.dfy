/** The two-way difference of two lists of ids, and what applying it to an endpoint does. */
module SliceDiff {
  import opened Aws

  function Elements<T(==)>(s: seq<T>): set<T> {
    set x | x in s
  }

  /** StringSliceTwoWayDiff: what to create and what to delete to get from current to expected. Map
      iteration order is arbitrary, so only the elements and their distinctness are promised. */
  method TwoWayDiff<T(==)>(current: seq<T>, expected: seq<T>) returns (toCreate: seq<T>, toDelete: seq<T>)
    ensures NoDuplicates(toCreate) && NoDuplicates(toDelete)
    ensures forall x :: x in toCreate <==> x in expected && x !in current
    ensures forall x :: x in toDelete <==> x in current && x !in expected
  {
    var currentMap: map<T, bool> := map[];
    for i := 0 to |current|
      invariant forall x :: x in currentMap <==> x in current[..i]
    {
      currentMap := currentMap[current[i] := true];
    }
    var expectedMap: map<T, bool> := map[];
    for i := 0 to |expected|
      invariant forall x :: x in expectedMap <==> x in expected[..i]
    {
      expectedMap := expectedMap[expected[i] := true];
    }
    assert forall x :: x in currentMap <==> x in current;
    assert forall x :: x in expectedMap <==> x in expected;
    toDelete := KeysOutside(currentMap, expectedMap);
    toCreate := KeysOutside(expectedMap, currentMap);
  }

  method KeysOutside<T(==)>(m: map<T, bool>, other: map<T, bool>) returns (r: seq<T>)
    ensures NoDuplicates(r)
    ensures forall x :: x in r <==> x in m && x !in other
  {
    var keys := Enumerate(m.Keys);
    r := [];
    for i := 0 to |keys|
      invariant NoDuplicates(r)
      invariant forall x :: x in r <==> x in keys[..i] && x !in other
    {
      assert keys[i] !in keys[..i];
      if keys[i] !in other {
        r := r + [keys[i]];
      }
    }
    assert keys[..|keys|] == keys;
  }
}
