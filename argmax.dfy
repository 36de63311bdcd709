/** The left-to-right maximum scan that both the cross-entropy loss and the
    driver's `judge` run over a result's entries: start at index 0 with a floor
    value, and move to entry `i` only when it is strictly greater than the best
    value seen so far. */
module ArgMax {

  /** The index and value the scan holds after visiting all of `xs`. It is the
      first index of the greatest entry when that entry exceeds `floor`, and
      `(0, floor)` when no entry does. */
  function Scan(xs: seq<real>, floor: real): (r: (nat, real))
    ensures r.1 >= floor
    ensures forall k :: 0 <= k < |xs| ==> xs[k] <= r.1
    ensures forall k :: 0 <= k < r.0 && k < |xs| ==> xs[k] < r.1
    ensures (r.0 == 0 && r.1 == floor) || (r.0 < |xs| && r.1 == xs[r.0] && r.1 > floor)
  {
    if |xs| == 0 then (0, floor)
    else
      var prev := Scan(xs[..|xs| - 1], floor);
      if xs[|xs| - 1] > prev.1 then (|xs| - 1, xs[|xs| - 1]) else prev
  }

  /** When some entry exceeds the floor and is the first strict maximum, the scan
      stops exactly at its index. */
  lemma ScanIndexUnique(xs: seq<real>, floor: real, j: nat)
    requires j < |xs| && xs[j] > floor
    requires forall k :: 0 <= k < |xs| ==> xs[k] <= xs[j]
    requires forall k :: 0 <= k < j ==> xs[k] < xs[j]
    ensures Scan(xs, floor).0 == j
  {
    var r := Scan(xs, floor);
    assert r.0 < |xs| && r.1 == xs[r.0];
  }
}
