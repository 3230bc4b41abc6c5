/** The JavaScript array operations the store is written with: `filter`,
    `map`, `find` and `splice`, as functions on sequences. */
module Lists {
  import opened Types

  /** Array `map`: `f` applied to each element. */
  function Map<T>(s: seq<T>, f: T -> T): (r: seq<T>)
    ensures |r| == |s|
    ensures forall i :: 0 <= i < |s| ==> r[i] == f(s[i])
  {
    seq(|s|, i requires 0 <= i < |s| => f(s[i]))
  }

  /** Array `filter`: the elements `keep` accepts, and only those. */
  function Filter<T(!new)>(s: seq<T>, keep: T -> bool): (r: seq<T>)
    ensures |r| <= |s|
    ensures forall x :: x in r <==> x in s && keep(x)
  {
    if s == [] then []
    else
      var rest := Filter(s[1..], keep);
      assert forall x :: x in s <==> x == s[0] || x in s[1..];
      if keep(s[0]) then [s[0]] + rest else rest
  }

  /** The positions of `s[from..]` that `keep` accepts, in increasing order. */
  function KeptIndices<T>(s: seq<T>, keep: T -> bool, from: nat): (idx: seq<nat>)
    requires from <= |s|
    ensures forall k :: 0 <= k < |idx| ==> from <= idx[k] < |s| && keep(s[idx[k]])
    ensures forall k, l :: 0 <= k < l < |idx| ==> idx[k] < idx[l]
    ensures forall i :: from <= i < |s| && keep(s[i]) ==> i in idx
    decreases |s| - from
  {
    if from == |s| then []
    else if keep(s[from]) then [from] + KeptIndices(s, keep, from + 1)
    else KeptIndices(s, keep, from + 1)
  }

  /** `r` is `s` read at the positions `idx`, left to right. */
  ghost predicate ReadAt<T>(r: seq<T>, s: seq<T>, idx: seq<nat>)
  {
    |r| == |idx| && forall k :: 0 <= k < |idx| ==> idx[k] < |s| && r[k] == s[idx[k]]
  }

  /** `filter` keeps the relative order: its result is `s` read at exactly the
      accepted positions, left to right. */
  lemma {:induction false} FilterKeepsOrder<T(!new)>(s: seq<T>, keep: T -> bool, from: nat)
    requires from <= |s|
    ensures ReadAt(Filter(s[from..], keep), s, KeptIndices(s, keep, from))
    decreases |s| - from
  {
    if from < |s| {
      FilterKeepsOrder(s, keep, from + 1);
      FilterStep(s, keep, from);
      if keep(s[from]) {
        ReadAtCons(Filter(s[from + 1..], keep), s, KeptIndices(s, keep, from + 1), from);
      }
    }
  }

  lemma FilterStep<T(!new)>(s: seq<T>, keep: T -> bool, from: nat)
    requires from < |s|
    ensures Filter(s[from..], keep) ==
      if keep(s[from]) then [s[from]] + Filter(s[from + 1..], keep) else Filter(s[from + 1..], keep)
  {
    var t := s[from..];
    assert t[0] == s[from] && t[1..] == s[from + 1..];
  }

  lemma ReadAtCons<T>(r: seq<T>, s: seq<T>, idx: seq<nat>, i: nat)
    requires ReadAt(r, s, idx) && i < |s|
    ensures ReadAt([s[i]] + r, s, [i] + idx)
  {
    var r', idx' := [s[i]] + r, [i] + idx;
    forall k | 0 <= k < |idx'| ensures idx'[k] < |s| && r'[k] == s[idx'[k]] {
      if k > 0 {
        assert r'[k] == r[k - 1] && idx'[k] == idx[k - 1];
      }
    }
  }

  /** Array `find`: the first element `p` accepts, or `None` when there is none. */
  function Find<T(!new)>(s: seq<T>, p: T -> bool): (r: Option<T>)
    ensures r.None? <==> forall x :: x in s ==> !p(x)
    ensures r.Some? ==> p(r.value) && exists i :: 0 <= i < |s| && s[i] == r.value &&
                                                 forall j :: 0 <= j < i ==> !p(s[j])
  {
    if s == [] then None
    else if p(s[0]) then Some(s[0])
    else
      var r := Find(s[1..], p);
      assert forall x :: x in s <==> x == s[0] || x in s[1..];
      if r.Some? then
        ghost var i :| 0 <= i < |s[1..]| && s[1..][i] == r.value &&
                       forall j :: 0 <= j < i ==> !p(s[1..][j]);
        assert s[i + 1] == r.value && forall j :: 0 <= j < i + 1 ==> !p(s[j]);
        r
      else r
  }

  function Min(a: int, b: int): int
  {
    if a < b then a else b
  }

  /** Array `splice` inserting one element at a non-negative index `i`: an
      index beyond the end inserts at the end. Everything before the insertion point stays, `x`
      comes next, everything after moves up by one. */
  function InsertAt<T>(s: seq<T>, i: nat, x: T): (r: seq<T>)
    ensures var k := Min(i, |s|);
      |r| == |s| + 1 && r[k] == x &&
      (forall j :: 0 <= j < k ==> r[j] == s[j]) &&
      (forall j :: k <= j < |s| ==> r[j + 1] == s[j])
    ensures multiset(r) == multiset(s) + multiset{x}
  {
    var k := Min(i, |s|);
    assert s == s[..k] + s[k..];
    s[..k] + [x] + s[k..]
  }
}
