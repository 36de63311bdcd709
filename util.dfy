/** Batch helpers: averaging every sample's parameter gradients, and shuffling two
    sequences with one permutation so that their pairing survives. */
module Util {
  import opened Matrix
  import opened Nn

  /** What `calc_all_grads_avg` reads without panicking: no sample has more layers
      than the first, no layer more gradient slots than the first sample's, and
      every slot has the shape of the first sample's, so that `+` applies. */
  predicate FitsFirst(all: seq<seq<LayerCache>>) {
    forall i :: 0 <= i < |all| ==>
      |all[i]| <= |all[0]| &&
      forall j :: 0 <= j < |all[i]| ==>
        |all[i][j]| <= |all[0][j]| &&
        forall k :: 0 <= k < |all[i][j]| ==> SameShape(all[i][j][k], all[0][j][k])
  }

  /** Whether sample `i` has a gradient in slot `k` of layer `j`. */
  predicate Has(all: seq<seq<LayerCache>>, i: nat, j: nat, k: nat)
    requires i < |all|
  {
    j < |all[i]| && k < |all[i][j]|
  }

  /** Slot `k` of layer `j` summed over the first `n` samples, in order, counting a
      sample only where it has that slot. */
  function SlotTotal(all: seq<seq<LayerCache>>, j: nat, k: nat, n: nat): (m: Mat)
    requires FitsFirst(all) && 1 <= n <= |all| && Has(all, 0, j, k)
    ensures SameShape(m, all[0][j][k])
  {
    if n == 1 then all[0][j][k]
    else
      var prev := SlotTotal(all, j, k, n - 1);
      if Has(all, n - 1, j, k) then Add(prev, all[n - 1][j][k]) else prev
  }

  /** `base` has the layer and slot layout of `first`, each slot of the same shape. */
  predicate SameLayout(base: seq<LayerCache>, first: seq<LayerCache>) {
    |base| == |first| &&
    forall j :: 0 <= j < |base| ==>
      |base[j]| == |first[j]| &&
      forall k :: 0 <= k < |base[j]| ==> SameShape(base[j][k], first[j][k])
  }

  /** Adds every gradient of layer `j` of sample `i` into the matching slot of
      `base`; the other layers are left alone. */
  method AddLayer(base: seq<LayerCache>, all: seq<seq<LayerCache>>, i: nat, j: nat) returns (next: seq<LayerCache>)
    requires FitsFirst(all) && 1 <= i < |all| && j < |all[i]| && SameLayout(base, all[0])
    requires forall k :: 0 <= k < |base[j]| ==> base[j][k] == SlotTotal(all, j, k, i)
    ensures SameLayout(next, all[0])
    ensures forall j' :: 0 <= j' < |base| && j' != j ==> next[j'] == base[j']
    ensures forall k :: 0 <= k < |next[j]| ==> next[j][k] == SlotTotal(all, j, k, i + 1)
  {
    next := base;
    var layerNow := all[i][j];
    for k := 0 to |layerNow|
      invariant SameLayout(next, all[0])
      invariant forall j' :: 0 <= j' < |base| && j' != j ==> next[j'] == base[j']
      invariant forall k' :: 0 <= k' < k ==> next[j][k'] == SlotTotal(all, j, k', i + 1)
      invariant forall k' :: k <= k' < |next[j]| ==> next[j][k'] == SlotTotal(all, j, k', i)
    {
      next := next[j := next[j][k := Add(next[j][k], layerNow[k])]];
    }
    forall k' | |layerNow| <= k' < |next[j]|
      ensures next[j][k'] == SlotTotal(all, j, k', i + 1)
    {
      assert !Has(all, i, j, k');
    }
  }

  /** Adds every gradient of sample `i` into the matching slot of `base`, which holds
      the totals over the samples before `i`. */
  method AddSample(base: seq<LayerCache>, all: seq<seq<LayerCache>>, i: nat) returns (next: seq<LayerCache>)
    requires FitsFirst(all) && 1 <= i < |all| && SameLayout(base, all[0])
    requires forall j, k :: 0 <= j < |base| && 0 <= k < |base[j]| ==> base[j][k] == SlotTotal(all, j, k, i)
    ensures SameLayout(next, all[0])
    ensures forall j, k :: 0 <= j < |next| && 0 <= k < |next[j]| ==> next[j][k] == SlotTotal(all, j, k, i + 1)
  {
    next := base;
    var now := all[i];
    for j := 0 to |now|
      invariant SameLayout(next, all[0])
      invariant forall j', k :: 0 <= j' < j && 0 <= k < |next[j']| ==> next[j'][k] == SlotTotal(all, j', k, i + 1)
      invariant forall j', k :: j <= j' < |next| && 0 <= k < |next[j']| ==> next[j'][k] == SlotTotal(all, j', k, i)
    {
      next := AddLayer(next, all, i, j);
    }
    forall j', k | |now| <= j' < |next| && 0 <= k < |next[j']|
      ensures next[j'][k] == SlotTotal(all, j', k, i + 1)
    {
      assert !Has(all, i, j', k);
    }
  }

  /** Divides every slot of `base` by `d` in place. */
  method DivideSlots(base: seq<LayerCache>, d: real) returns (r: seq<LayerCache>)
    requires d != 0.0
    ensures SameLayout(r, base)
    ensures forall j, k :: 0 <= j < |r| && 0 <= k < |r[j]| ==> r[j][k] == Div(base[j][k], d)
  {
    r := base;
    for j := 0 to |r|
      invariant SameLayout(r, base)
      invariant forall j', k :: 0 <= j' < |r| && 0 <= k < |r[j']| ==>
                  r[j'][k] == if j' < j then Div(base[j'][k], d) else base[j'][k]
    {
      for k := 0 to |r[j]|
        invariant SameLayout(r, base)
        invariant forall j', k' :: 0 <= j' < |r| && 0 <= k' < |r[j']| ==>
                    r[j'][k'] == if j' < j || (j' == j && k' < k) then Div(base[j'][k'], d) else base[j'][k']
      {
        r := r[j := r[j][k := Div(r[j][k], d)]];
      }
    }
  }

  /** The average gradients: empty for an empty batch; otherwise the first sample's
      layout, each slot the sum over all samples divided by their number. */
  method CalcAllGradsAvg(all: seq<seq<LayerCache>>) returns (r: seq<LayerCache>)
    requires FitsFirst(all)
    ensures |all| == 0 ==> r == []
    ensures |all| > 0 ==>
              SameLayout(r, all[0]) &&
              forall j, k :: 0 <= j < |r| && 0 <= k < |r[j]| ==>
                r[j][k] == Div(SlotTotal(all, j, k, |all|), |all| as real)
  {
    var cnt := |all|;
    if cnt == 0 {
      return [];
    }
    var base := all[0];
    for i := 1 to cnt
      invariant SameLayout(base, all[0])
      invariant forall j, k :: 0 <= j < |base| && 0 <= k < |base[j]| ==> base[j][k] == SlotTotal(all, j, k, i)
    {
      base := AddSample(base, all, i);
    }
    r := DivideSlots(base, cnt as real);
  }

  /** `n` copies of the same gradient add up to `n` times it. */
  lemma {:induction false} SlotTotalOfCopies(all: seq<seq<LayerCache>>, c: seq<LayerCache>, j: nat, k: nat, n: nat)
    requires 1 <= n <= |all| && forall i :: 0 <= i < |all| ==> all[i] == c
    requires j < |c| && k < |c[j]|
    ensures FitsFirst(all)
    ensures forall r, col :: 0 <= r < |c[j][k]| && 0 <= col < |c[j][k][r]| ==>
              SlotTotal(all, j, k, n)[r][col] == (n as real) * c[j][k][r][col]
  {
    if n > 1 {
      SlotTotalOfCopies(all, c, j, k, n - 1);
      forall r, col | 0 <= r < |c[j][k]| && 0 <= col < |c[j][k][r]|
        ensures SlotTotal(all, j, k, n)[r][col] == (n as real) * c[j][k][r][col]
      {
        var x := c[j][k][r][col];
        calc {
          SlotTotal(all, j, k, n)[r][col];
          == SlotTotal(all, j, k, n - 1)[r][col] + x;
          == ((n - 1) as real) * x + x;
          == (n as real) * x;
        }
      }
    }
  }

  /** One slot of the average of identical samples is that sample's slot. */
  lemma AverageSlotOfCopies(all: seq<seq<LayerCache>>, c: seq<LayerCache>, j: nat, k: nat)
    requires |all| >= 1 && forall i :: 0 <= i < |all| ==> all[i] == c
    requires j < |c| && k < |c[j]|
    ensures FitsFirst(all)
    ensures Div(SlotTotal(all, j, k, |all|), |all| as real) == c[j][k]
  {
    var n := |all|;
    assert all[0] == c;
    SlotTotalOfCopies(all, c, j, k, n);
    var total := SlotTotal(all, j, k, n);
    var avg := Div(total, n as real);
    forall r, col | 0 <= r < |c[j][k]| && 0 <= col < |c[j][k][r]|
      ensures avg[r][col] == c[j][k][r][col]
    {
      MulDivCancel(total[r][col], c[j][k][r][col], n as real);
    }
    MatEq(avg, c[j][k]);
  }

  /** Averaging a batch of identical samples gives that sample back; in particular
      a batch of one sample is returned unchanged. */
  lemma AverageOfCopies(all: seq<seq<LayerCache>>, c: seq<LayerCache>)
    requires |all| >= 1 && forall i :: 0 <= i < |all| ==> all[i] == c
    ensures FitsFirst(all)
    ensures forall j, k :: 0 <= j < |c| && 0 <= k < |c[j]| ==>
              Div(SlotTotal(all, j, k, |all|), |all| as real) == c[j][k]
  {
    assert all[0] == c;
    forall j, k | 0 <= j < |c| && 0 <= k < |c[j]|
      ensures Div(SlotTotal(all, j, k, |all|), |all| as real) == c[j][k]
    {
      AverageSlotOfCopies(all, c, j, k);
    }
  }

  /** The unit test's second half: five copies of one sample average to it. */
  method ExampleAverageOfCopies(c: seq<LayerCache>) returns (r: seq<LayerCache>)
    ensures r == c
  {
    var all := seq(5, _ => c);
    AverageOfCopies(all, c);
    r := CalcAllGradsAvg(all);
    forall j | 0 <= j < |c| ensures r[j] == c[j] {
      assert |r[j]| == |c[j]|;
    }
  }

  /** The unit test's first half: two samples of two layers with two slots each. */
  method ExampleAverage() returns (r: seq<LayerCache>)
    ensures r == [[[[5.5, 11.0]], [[550.0, 550.0]]], [[[55.0, 110.0]], [[0.0, 0.0]]]]
  {
    var item1: seq<LayerCache> := [[[[1.0, 2.0]], [[100.0, 100.0]]], [[[10.0, 20.0]], [[0.0, 0.0]]]];
    var item2: seq<LayerCache> := [[[[10.0, 20.0]], [[1000.0, 1000.0]]], [[[100.0, 200.0]], [[0.0, 0.0]]]];
    var all := [item1, item2];
    assert FitsFirst(all);
    r := CalcAllGradsAvg(all);
    var want: seq<LayerCache> := [[[[5.5, 11.0]], [[550.0, 550.0]]], [[[55.0, 110.0]], [[0.0, 0.0]]]];
    forall j, k | 0 <= j < 2 && 0 <= k < 2 ensures r[j][k] == want[j][k] {
      assert SlotTotal(all, j, k, 1) == item1[j][k];
      assert Has(all, 1, j, k);
      var total := SlotTotal(all, j, k, 2);
      assert total == Add(item1[j][k], item2[j][k]);
      MatEq(r[j][k], want[j][k]);
    }
    assert r[0] == want[0] && r[1] == want[1];
  }

  /** `0, 1, ..., n - 1`. */
  function Indices(n: nat): (r: seq<nat>)
    ensures |r| == n && forall i :: 0 <= i < n ==> r[i] == i
  {
    seq(n, i requires 0 <= i < n => i as nat)
  }

  /** `perm` lists every index below `n` exactly once: the order a random shuffle
      of `n` items picks, taken here as an argument. */
  predicate IsPermutation(perm: seq<nat>, n: nat) {
    multiset(perm) == multiset(Indices(n))
  }

  /** A permutation of `n` indices has `n` entries, each below `n`. */
  lemma PermutationBounds(perm: seq<nat>, n: nat)
    requires IsPermutation(perm, n)
    ensures |perm| == n && forall i :: 0 <= i < |perm| ==> perm[i] < n
  {
    assert |perm| == |multiset(perm)| == |multiset(Indices(n))| == n;
    forall i | 0 <= i < |perm| ensures perm[i] < n {
      assert perm[i] in multiset(Indices(n));
    }
  }

  /** The items of `s` in the order `perm` lists their indices. */
  function Permute<T>(s: seq<T>, perm: seq<nat>): (r: seq<T>)
    requires forall i :: 0 <= i < |perm| ==> perm[i] < |s|
    ensures |r| == |perm| && forall i :: 0 <= i < |perm| ==> r[i] == s[perm[i]]
  {
    seq(|perm|, i requires 0 <= i < |perm| => s[perm[i]])
  }

  /** Taking the largest index out of a permutation of `n + 1` indices leaves a
      permutation of `n`. */
  lemma RemoveLargest(perm: seq<nat>, n: nat) returns (p: nat)
    requires IsPermutation(perm, n + 1)
    ensures p < |perm| && perm[p] == n
    ensures IsPermutation(perm[..p] + perm[p + 1..], n)
  {
    assert Indices(n + 1)[n] == n;
    assert n in multiset(perm);
    p :| 0 <= p < |perm| && perm[p] == n;
    var rest := perm[..p] + perm[p + 1..];
    assert perm == perm[..p] + [n] + perm[p + 1..];
    assert Indices(n + 1) == Indices(n) + [n];
    var have, want := multiset(rest), multiset(Indices(n));
    assert have + multiset{n} == want + multiset{n};
    assert have == want by {
      forall x: nat ensures have[x] == want[x] {
        assert (have + multiset{n})[x] == (want + multiset{n})[x];
      }
    }
  }

  /** Reordering by a permutation keeps every item, as often as it occurred. */
  lemma {:induction false} PermuteMultiset<T>(s: seq<T>, perm: seq<nat>)
    requires IsPermutation(perm, |s|)
    ensures forall i :: 0 <= i < |perm| ==> perm[i] < |s|
    ensures multiset(Permute(s, perm)) == multiset(s)
  {
    PermutationBounds(perm, |s|);
    if |s| > 0 {
      var last: nat := |s| - 1;
      var p := RemoveLargest(perm, last);
      var rest := perm[..p] + perm[p + 1..];
      var init := s[..last];
      PermuteMultiset(init, rest);
      var q := Permute(init, rest);
      assert Permute(s, perm) == q[..p] + [s[last]] + q[p..];
      assert q == q[..p] + q[p..];
      assert s == init + [s[last]];
    }
  }

  /** The smaller of two lengths: how many pairs `zip` forms. */
  function Min(x: nat, y: nat): nat {
    if x <= y then x else y
  }

  /** Pairs `a[i]` with `b[i]` for each index both have, reorders the pairs by
      `perm` (the source draws it at random), and splits them again. Each output
      holds the items of its input's common prefix, each pair still together. */
  method Shuffle<A, B>(a: seq<A>, b: seq<B>, perm: seq<nat>) returns (ra: seq<A>, rb: seq<B>)
    requires IsPermutation(perm, Min(|a|, |b|))
    ensures |ra| == |rb| == |perm| == Min(|a|, |b|)
    ensures forall i :: 0 <= i < |ra| ==> perm[i] < |ra| && ra[i] == a[perm[i]] && rb[i] == b[perm[i]]
    ensures multiset(ra) == multiset(a[..|ra|]) && multiset(rb) == multiset(b[..|rb|])
  {
    var n := Min(|a|, |b|);
    PermutationBounds(perm, n);
    var ab := seq(n, i requires 0 <= i < n => (a[i], b[i]));
    var shuffled := Permute(ab, perm);
    ra, rb := [], [];
    for i := 0 to |shuffled|
      invariant |ra| == |rb| == i
      invariant forall i' :: 0 <= i' < i ==> ra[i'] == a[perm[i']] && rb[i'] == b[perm[i']]
    {
      var (x, y) := shuffled[i];
      ra := ra + [x];
      rb := rb + [y];
    }
    assert ra == Permute(a[..n], perm);
    assert rb == Permute(b[..n], perm);
    PermuteMultiset(a[..n], perm);
    PermuteMultiset(b[..n], perm);
  }

  /** The unit test: shuffling a sequence together with itself gives two equal
      sequences. */
  method ExampleShuffleSame<T>(v: seq<T>, perm: seq<nat>) returns (ra: seq<T>, rb: seq<T>)
    requires IsPermutation(perm, |v|)
    ensures ra == rb
  {
    ra, rb := Shuffle(v, v, perm);
  }
}
