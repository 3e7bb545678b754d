/** `Array.prototype.filter` and what it promises: an order-preserving selection. */
module Lists {

  /** `s.filter(keep)`. */
  function Filter<T>(keep: T -> bool, s: seq<T>): (r: seq<T>)
    ensures |r| <= |s|
    ensures forall x :: x in r ==> x in s && keep(x)
    decreases |s|
  {
    if s == [] then [] else (if keep(s[0]) then [s[0]] else []) + Filter(keep, s[1..])
  }

  /** The indices of `s` whose element `keep` accepts, ascending. */
  function KeptIndices<T>(keep: T -> bool, s: seq<T>): (idx: seq<nat>)
    decreases |s|
  {
    if s == [] then []
    else
      var later := KeptIndices(keep, s[1..]);
      (if keep(s[0]) then [0] else []) + seq(|later|, k requires 0 <= k < |later| => later[k] + 1)
  }

  /** `r` is `s` restricted to the strictly increasing indices `idx`. */
  ghost predicate SelectedBy<T>(r: seq<T>, s: seq<T>, idx: seq<nat>) {
    && |idx| == |r|
    && (forall k :: 0 <= k < |idx| ==> idx[k] < |s| && r[k] == s[idx[k]])
    && (forall k, l :: 0 <= k < l < |idx| ==> idx[k] < idx[l])
  }

  /** The indices of the accepted elements, shifted past a first element. */
  lemma KeptIndicesShift<T>(keep: T -> bool, s: seq<T>)
    requires s != []
    ensures var later := KeptIndices(keep, s[1..]);
            KeptIndices(keep, s) == (if keep(s[0]) then [0] else []) + seq(|later|, k requires 0 <= k < |later| => later[k] + 1)
  {
  }

  /** Shifting every index up by one moves `i` to `i + 1` and leaves 0 out. */
  lemma ShiftedMember(later: seq<nat>, i: nat)
    ensures var shifted := seq(|later|, k requires 0 <= k < |later| => later[k] + 1);
            (i + 1 in shifted <==> i in later) && 0 !in shifted
  {
    var shifted := seq(|later|, k requires 0 <= k < |later| => later[k] + 1);
    if i + 1 in shifted {
      var k :| 0 <= k < |shifted| && shifted[k] == i + 1;
      assert later[k] == i;
    }
    if i in later {
      var k :| 0 <= k < |later| && later[k] == i;
      assert shifted[k] == i + 1;
    }
  }

  /** Exactly the indices of accepted elements are kept. */
  lemma {:induction false} KeptIndicesExact<T>(keep: T -> bool, s: seq<T>)
    ensures forall i :: 0 <= i < |s| ==> (i in KeptIndices(keep, s) <==> keep(s[i]))
    ensures forall k :: 0 <= k < |KeptIndices(keep, s)| ==> KeptIndices(keep, s)[k] < |s|
    decreases |s|
  {
    if s != [] {
      var t := s[1..];
      KeptIndicesExact(keep, t);
      var later := KeptIndices(keep, t);
      var shifted := seq(|later|, k requires 0 <= k < |later| => later[k] + 1);
      KeptIndicesShift(keep, s);
      forall i | 1 <= i < |s|
        ensures i in shifted <==> keep(s[i])
      {
        assert s[i] == t[i - 1];
        ShiftedMember(later, i - 1);
      }
      assert 0 !in shifted;
    }
  }

  /** A selection of the tail, shifted by one and led by the head when it is kept, selects from `s`. */
  lemma SelectedByPrepend<T>(s: seq<T>, rt: seq<T>, later: seq<nat>, keepHead: bool)
    requires s != []
    requires SelectedBy(rt, s[1..], later)
    ensures SelectedBy((if keepHead then [s[0]] else []) + rt, s,
                       (if keepHead then [0] else []) + seq(|later|, k requires 0 <= k < |later| => later[k] + 1))
  {
    var shifted := seq(|later|, k requires 0 <= k < |later| => later[k] + 1);
    var r := (if keepHead then [s[0]] else []) + rt;
    var idx := (if keepHead then [0] else []) + shifted;
    var head := if keepHead then 1 else 0;
    forall k | head <= k < |idx|
      ensures idx[k] == later[k - head] + 1 && idx[k] < |s| && r[k] == s[idx[k]]
    {
      assert r[k] == rt[k - head];
      assert rt[k - head] == s[1..][later[k - head]];
    }
    forall k, l | 0 <= k < l < |idx|
      ensures idx[k] < idx[l]
    {
      if k >= head {
        assert idx[k] == later[k - head] + 1 && idx[l] == later[l - head] + 1;
      }
    }
  }

  /**
   * `filter` keeps the accepted elements in their original order: the result is `s` read at
   * the ascending indices of the accepted elements, and those are all the accepted indices.
   */
  lemma {:induction false} FilterSelects<T>(keep: T -> bool, s: seq<T>)
    ensures SelectedBy(Filter(keep, s), s, KeptIndices(keep, s))
    ensures forall i :: 0 <= i < |s| ==> (i in KeptIndices(keep, s) <==> keep(s[i]))
    decreases |s|
  {
    KeptIndicesExact(keep, s);
    if s != [] {
      FilterSelects(keep, s[1..]);
      KeptIndicesShift(keep, s);
      SelectedByPrepend(s, Filter(keep, s[1..]), KeptIndices(keep, s[1..]), keep(s[0]));
    }
  }

  /** Filtering with a predicate that accepts every element changes nothing. */
  lemma {:induction false} FilterKeepsAll<T>(keep: T -> bool, s: seq<T>)
    requires forall i :: 0 <= i < |s| ==> keep(s[i])
    ensures Filter(keep, s) == s
    decreases |s|
  {
    if s != [] {
      FilterKeepsAll(keep, s[1..]);
    }
  }

  /** Filtering a filtered list again with the same predicate changes nothing. */
  lemma FilterIdempotent<T>(keep: T -> bool, s: seq<T>)
    ensures Filter(keep, Filter(keep, s)) == Filter(keep, s)
  {
    var r := Filter(keep, s);
    assert forall i :: 0 <= i < |r| ==> r[i] in r;
    FilterKeepsAll(keep, r);
  }

  /** Two predicates that agree on every element filter alike. */
  lemma {:induction false} FilterCongruent<T>(f: T -> bool, g: T -> bool, s: seq<T>)
    requires forall i :: 0 <= i < |s| ==> f(s[i]) == g(s[i])
    ensures Filter(f, s) == Filter(g, s)
    decreases |s|
  {
    if s != [] {
      FilterCongruent(f, g, s[1..]);
    }
  }

  /** `s.slice(0, n)`: the first `n` elements, or all of them when there are fewer. */
  function Take<T>(s: seq<T>, n: nat): (r: seq<T>)
    ensures |r| == if |s| <= n then |s| else n
    ensures r == s[..|r|]
  {
    if |s| <= n then s else s[..n]
  }

  /** Taking from a list whose front was already cut to `n` elements is taking from the whole. */
  lemma TakeAfterTake<T>(a: seq<T>, b: seq<T>, n: nat)
    ensures Take(a + Take(b, n), n) == Take(a + b, n)
  {
    var t := Take(b, n);
    if |a + b| > n && |a + t| > n {
      assert (a + t)[..n] == (a + b)[..n] by {
        forall i | 0 <= i < n
          ensures (a + t)[i] == (a + b)[i]
        {
          if i >= |a| {
            assert i - |a| < |t|;
          }
        }
      }
    }
  }

  /** `s` in reverse order. */
  function Reversed<T>(s: seq<T>): (r: seq<T>)
    ensures |r| == |s|
    ensures forall i :: 0 <= i < |s| ==> r[i] == s[|s| - 1 - i]
    decreases |s|
  {
    if s == [] then [] else Reversed(s[1..]) + [s[0]]
  }
}
