/**
  `sorted(expenses.items(), key=lambda x: sum(x[1].values()), reverse=True)`:
  a stable sort of the categories by signed total, largest first. Python's
  sort keeps the input order of equal keys also when `reverse=True`.
*/
module Sorting {
  import opened Groups

  /** Every category comes before any with a larger signed total. */
  ghost predicate NonIncreasing(s: seq<Group>) {
    forall i, j :: 0 <= i < j < |s| ==> GroupTotal(s[i]) >= GroupTotal(s[j])
  }

  /** The groups with signed total `k`, in their order in `s`. */
  function WithTotal(s: seq<Group>, k: real): seq<Group> {
    if s == [] then []
    else (if GroupTotal(s[0]) == k then [s[0]] else []) + WithTotal(s[1..], k)
  }

  lemma WithTotalCons(x: Group, t: seq<Group>, k: real)
    ensures WithTotal([x] + t, k) == (if GroupTotal(x) == k then [x] else []) + WithTotal(t, k)
  {
    assert ([x] + t)[1..] == t;
  }

  /** Puts `g` before the first group whose total is not larger than its own. */
  function InsertByTotal(g: Group, s: seq<Group>): (r: seq<Group>)
    ensures multiset(r) == multiset(s) + multiset{g}
  {
    if s == [] || GroupTotal(g) >= GroupTotal(s[0]) then
      [g] + s
    else
      assert s == [s[0]] + s[1..];
      [s[0]] + InsertByTotal(g, s[1..])
  }

  /** Insertion brings in no total above a bound that `g` and all of `s` respect. */
  lemma {:induction false} InsertByTotalBounded(g: Group, s: seq<Group>, b: real)
    requires GroupTotal(g) <= b && forall i :: 0 <= i < |s| ==> GroupTotal(s[i]) <= b
    ensures forall i :: 0 <= i < |InsertByTotal(g, s)| ==> GroupTotal(InsertByTotal(g, s)[i]) <= b
  {
    if s == [] || GroupTotal(g) >= GroupTotal(s[0]) {
      var r := [g] + s;
      forall i | 1 <= i < |r| ensures r[i] == s[i - 1] {
      }
    } else {
      var rest := InsertByTotal(g, s[1..]);
      InsertByTotalBounded(g, s[1..], b);
      var r := [s[0]] + rest;
      forall i | 1 <= i < |r| ensures r[i] == rest[i - 1] {
      }
    }
  }

  lemma {:induction false} InsertByTotalKeepsOrder(g: Group, s: seq<Group>)
    requires NonIncreasing(s)
    ensures NonIncreasing(InsertByTotal(g, s))
  {
    if s == [] || GroupTotal(g) >= GroupTotal(s[0]) {
      var r := [g] + s;
      forall i, j | 0 <= i < j < |r| ensures GroupTotal(r[i]) >= GroupTotal(r[j]) {
        assert r[j] == s[j - 1];
        if i > 0 {
          assert r[i] == s[i - 1];
        }
      }
    } else {
      var t := s[1..];
      var rest := InsertByTotal(g, t);
      assert NonIncreasing(t);
      InsertByTotalKeepsOrder(g, t);
      assert forall i :: 0 <= i < |t| ==> GroupTotal(t[i]) <= GroupTotal(s[0]);
      InsertByTotalBounded(g, t, GroupTotal(s[0]));
      var r := [s[0]] + rest;
      forall i, j | 0 <= i < j < |r| ensures GroupTotal(r[i]) >= GroupTotal(r[j]) {
        assert r[j] == rest[j - 1];
        if i > 0 {
          assert r[i] == rest[i - 1];
        }
      }
    }
  }

  /** The order `sorted(..., reverse=True)` lists the categories in: a permutation of them. */
  function SortByTotal(groups: seq<Group>): (r: seq<Group>)
    ensures multiset(r) == multiset(groups)
  {
    if groups == [] then []
    else
      assert groups == [groups[0]] + groups[1..];
      InsertByTotal(groups[0], SortByTotal(groups[1..]))
  }

  /** The sorted categories run from the largest signed total to the smallest. */
  lemma {:induction false} SortByTotalIsSorted(groups: seq<Group>)
    ensures NonIncreasing(SortByTotal(groups))
  {
    if groups != [] {
      SortByTotalIsSorted(groups[1..]);
      InsertByTotalKeepsOrder(groups[0], SortByTotal(groups[1..]));
    }
  }

  /** Insertion moves `g` past groups with larger totals only, so it never reorders groups of one total. */
  lemma {:induction false} InsertByTotalIsStable(g: Group, s: seq<Group>, k: real)
    ensures WithTotal(InsertByTotal(g, s), k) == WithTotal([g] + s, k)
  {
    if s != [] && GroupTotal(g) < GroupTotal(s[0]) {
      var t := s[1..];
      assert s == [s[0]] + t;
      InsertByTotalIsStable(g, t, k);
      WithTotalCons(s[0], InsertByTotal(g, t), k);
      WithTotalCons(g, t, k);
      WithTotalCons(s[0], t, k);
      WithTotalCons(g, s, k);
      if GroupTotal(s[0]) == k {
        assert WithTotal([g] + t, k) == WithTotal(t, k);
        assert WithTotal([g] + s, k) == WithTotal(s, k);
      } else {
        assert WithTotal(s, k) == WithTotal(t, k);
      }
    }
  }

  /**
    The sort is stable: the categories with any one total appear in the order
    they had before sorting (for the report, the order of first appearance).
  */
  lemma {:induction false} SortByTotalIsStable(groups: seq<Group>, k: real)
    ensures WithTotal(SortByTotal(groups), k) == WithTotal(groups, k)
  {
    if groups != [] {
      SortByTotalIsStable(groups[1..], k);
      InsertByTotalIsStable(groups[0], SortByTotal(groups[1..]), k);
      WithTotalCons(groups[0], SortByTotal(groups[1..]), k);
      assert groups == [groups[0]] + groups[1..];
      WithTotalCons(groups[0], groups[1..], k);
    }
  }
}
