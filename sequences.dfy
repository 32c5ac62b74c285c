/** Order-preserving subsequences, the shape every `Array.prototype.filter` result has. */
module Sequences {

  /** `sub` is obtained from `s` by deleting some elements, keeping the order of the rest. */
  ghost predicate IsSubsequence<T>(sub: seq<T>, s: seq<T>)
    decreases |s|
  {
    if sub == [] then true
    else if s == [] then false
    else if sub[0] == s[0] then IsSubsequence(sub[1..], s[1..])
    else IsSubsequence(sub, s[1..])
  }

  /** Dropping the head of `s` and leaving it out of `sub` keeps the relation. */
  lemma {:induction false} SubsequenceSkip<T>(sub: seq<T>, s: seq<T>)
    requires s != []
    requires IsSubsequence(sub, s[1..])
    ensures IsSubsequence(sub, s)
    decreases |s|, 0
  {
    if sub != [] && sub[0] == s[0] {
      SubsequenceTail(sub, s[1..]);
    }
  }

  /** A subsequence stays one when its first element is dropped. */
  lemma {:induction false} SubsequenceTail<T>(sub: seq<T>, s: seq<T>)
    requires sub != []
    requires IsSubsequence(sub, s)
    ensures IsSubsequence(sub[1..], s)
    decreases |s|, 1
  {
    if sub[0] == s[0] {
      SubsequenceSkip(sub[1..], s);
    } else {
      SubsequenceTail(sub, s[1..]);
      if sub[1..] != [] {
        SubsequenceSkip(sub[1..], s);
      }
    }
  }

  /** `s.filter(keep)`: the elements of `s` that satisfy `keep`, in their original order. */
  function Filter<T>(keep: T -> bool, s: seq<T>): seq<T>
    decreases |s|
  {
    if s == [] then []
    else if keep(s[0]) then [s[0]] + Filter(keep, s[1..])
    else Filter(keep, s[1..])
  }

  /** The filtered sequence holds exactly the elements of `s` that are kept. */
  lemma {:induction false} FilterMembers<T(!new)>(keep: T -> bool, s: seq<T>)
    ensures forall x :: x in Filter(keep, s) <==> x in s && keep(x)
    decreases |s|
  {
    if s != [] {
      FilterMembers(keep, s[1..]);
      assert s == [s[0]] + s[1..];
    }
  }

  /** The filtered sequence keeps the order of `s`. */
  lemma {:induction false} FilterIsSubsequence<T>(keep: T -> bool, s: seq<T>)
    ensures IsSubsequence(Filter(keep, s), s)
    decreases |s|
  {
    if s != [] {
      var rest := Filter(keep, s[1..]);
      FilterIsSubsequence(keep, s[1..]);
      if keep(s[0]) {
        assert ([s[0]] + rest)[0] == s[0];
        assert ([s[0]] + rest)[1..] == rest;
      } else {
        SubsequenceSkip(rest, s);
      }
    }
  }

  /** Filtering a concatenation filters each part. */
  lemma {:induction false} FilterConcat<T(!new)>(keep: T -> bool, a: seq<T>, b: seq<T>)
    ensures Filter(keep, a + b) == Filter(keep, a) + Filter(keep, b)
    decreases |a|
  {
    if a == [] {
      assert a + b == b;
    } else {
      assert (a + b)[0] == a[0];
      assert (a + b)[1..] == a[1..] + b;
      FilterConcat(keep, a[1..], b);
    }
  }

  /** When every element is kept, filtering changes nothing. */
  lemma {:induction false} FilterKeepsAll<T(!new)>(keep: T -> bool, s: seq<T>)
    requires forall k :: 0 <= k < |s| ==> keep(s[k])
    ensures Filter(keep, s) == s
    decreases |s|
  {
    if s != [] {
      FilterKeepsAll(keep, s[1..]);
    }
  }

  /** A prefix whose every element is kept filters to itself. */
  lemma FilterKeepsPrefix<T(!new)>(keep: T -> bool, s: seq<T>, k: int)
    requires 0 <= k <= |s|
    requires forall j :: 0 <= j < k ==> keep(s[j])
    ensures Filter(keep, s[..k]) == s[..k]
  {
    var u := s[..k];
    assert forall j | 0 <= j < |u| :: u[j] == s[j];
    FilterKeepsAll(keep, u);
  }

  /** A suffix whose every element is kept filters to itself. */
  lemma FilterKeepsSuffix<T(!new)>(keep: T -> bool, s: seq<T>, k: int)
    requires 0 <= k <= |s|
    requires forall j :: k <= j < |s| ==> keep(s[j])
    ensures Filter(keep, s[k..]) == s[k..]
  {
    var u := s[k..];
    assert forall j | 0 <= j < |u| :: u[j] == s[k + j];
    FilterKeepsAll(keep, u);
  }

  /** A sequence around one of its elements. */
  lemma SplitAround<T>(s: seq<T>, k: int)
    requires 0 <= k < |s|
    ensures s == s[..k] + ([s[k]] + s[k + 1..])
  {
  }

  /** Filtering around a dropped element that both sides keep whole. */
  lemma FilterAround<T(!new)>(keep: T -> bool, s: seq<T>, k: int)
    requires 0 <= k < |s| && !keep(s[k])
    requires Filter(keep, s[..k]) == s[..k] && Filter(keep, s[k + 1..]) == s[k + 1..]
    ensures Filter(keep, s) == s[..k] + s[k + 1..]
  {
    SplitAround(s, k);
    FilterConcat(keep, s[..k], [s[k]] + s[k + 1..]);
    FilterCons(keep, s[k], s[k + 1..]);
    assert [] + s[k + 1..] == s[k + 1..];
  }

  /** Filtering out exactly one element removes it and keeps the order of the others. */
  lemma FilterDropsOne<T(!new)>(keep: T -> bool, s: seq<T>, k: int)
    requires 0 <= k < |s| && !keep(s[k])
    requires forall j :: 0 <= j < |s| && j != k ==> keep(s[j])
    ensures Filter(keep, s) == s[..k] + s[k + 1..]
  {
    assert Filter(keep, s[..k]) == s[..k] by { FilterKeepsPrefix(keep, s, k); }
    assert Filter(keep, s[k + 1..]) == s[k + 1..] by { FilterKeepsSuffix(keep, s, k + 1); }
    FilterAround(keep, s, k);
  }

  /** When no element is kept, filtering gives the empty sequence. */
  lemma {:induction false} FilterDropsAll<T(!new)>(keep: T -> bool, s: seq<T>)
    requires forall k :: 0 <= k < |s| ==> !keep(s[k])
    ensures Filter(keep, s) == []
    decreases |s|
  {
    if s != [] {
      FilterDropsAll(keep, s[1..]);
    }
  }

  /** `[x]` when `keep` holds for it, otherwise nothing. */
  function KeepIf<T>(keep: T -> bool, x: T): seq<T>
  {
    if keep(x) then [x] else []
  }

  /** Filtering one element in front of a sequence. */
  lemma FilterCons<T(!new)>(keep: T -> bool, x: T, s: seq<T>)
    ensures Filter(keep, [x] + s) == KeepIf(keep, x) + Filter(keep, s)
  {
    assert ([x] + s)[0] == x;
    assert ([x] + s)[1..] == s;
  }
}
