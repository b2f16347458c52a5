/** Picking from a list by position: which are picked, each once, in order. */
module Picks {
  /** The first n of the positions below `size` at which something holds. */
  ghost predicate FirstOf(picks: seq<nat>, n: nat, size: nat, keep: nat -> bool) {
    && |picks| <= n
    && (forall k :: 0 <= k < |picks| ==> picks[k] < size && keep(picks[k]))
    && (forall j, k :: 0 <= j < k < |picks| ==> picks[j] < picks[k])
    && forall i: nat :: i < size && keep(i) ==> i in picks || (|picks| == n > 0 && picks[n - 1] < i)
  }

  lemma SameFirst(picks: seq<nat>, n: nat, size: nat, keep: nat -> bool, keep': nat -> bool)
    requires FirstOf(picks, n, size, keep) && forall i: nat :: i < size ==> keep'(i) == keep(i)
    ensures FirstOf(picks, n, size, keep')
  {}

  /** One position more, while there is room. */
  lemma FirstMore(picks: seq<nat>, n: nat, size: nat, keep: nat -> bool, keep': nat -> bool)
    requires |picks| < n && FirstOf(picks, n, size, keep) && forall i: nat :: i < size ==> keep'(i) == keep(i)
    ensures FirstOf(if keep'(size) then picks + [size] else picks, n, size + 1, keep')
  {
    var more := if keep'(size) then picks + [size] else picks;
    forall i: nat | i < size + 1 && keep'(i) ensures i in more {
      if i == size {
        assert more[|picks|] == size;
      } else {
        assert keep(i) && i in picks;
      }
    }
  }

  /** The first m of the first n. */
  lemma FirstCut(picks: seq<nat>, n: nat, m: nat, size: nat, keep: nat -> bool)
    requires 0 < m <= |picks| && FirstOf(picks, n, size, keep)
    ensures FirstOf(picks[..m], m, size, keep)
  {
    forall i: nat | i < size && keep(i) ensures i in picks[..m] || picks[m - 1] < i {
      if i in picks {
        var k :| 0 <= k < |picks| && picks[k] == i;
        if k < m { assert picks[..m][k] == i; }
      }
    }
  }

  /** What is picked. */
  ghost predicate Gives<T>(items: seq<T>, picks: seq<nat>, out: seq<T>) {
    |out| == |picks| && forall k :: 0 <= k < |picks| ==> picks[k] < |items| && out[k] == items[picks[k]]
  }

  /** The positions of the items that something holds of. */
  function Where<T>(items: seq<T>, keep: T -> bool): nat -> bool { (i: nat) => i < |items| && keep(items[i]) }

  /** There are at most as many picks as positions. */
  lemma FewerPicks(picks: seq<nat>, n: nat, size: nat, keep: nat -> bool)
    requires FirstOf(picks, n, size, keep)
    ensures |picks| <= size
  {
    if picks != [] {
      Climbs(picks, |picks| - 1);
      assert picks[|picks| - 1] < size;
    }
  }

  lemma {:induction false} Climbs(picks: seq<nat>, k: nat)
    requires k < |picks| && forall i, j :: 0 <= i < j < |picks| ==> picks[i] < picks[j]
    ensures picks[k] >= k
  {
    if k == 0 {
    } else {
      Climbs(picks, k - 1);
    }
  }

  /** With room for all, all are picked. */
  lemma AllPicked(picks: seq<nat>, n: nat, size: nat, keep: nat -> bool, i: nat)
    requires FirstOf(picks, n, size, keep) && n >= size && i < size && keep(i)
    ensures i in picks
  {
    if |picks| == n > 0 { Climbs(picks, n - 1); }
  }

  /** The items that something holds of, in order. */
  function Kept<T>(items: seq<T>, keep: T -> bool): seq<T> {
    if items == [] then []
    else Kept(items[..|items| - 1], keep) + if keep(items[|items| - 1]) then [items[|items| - 1]] else []
  }

  lemma {:induction false} KeptPicks<T>(items: seq<T>, keep: T -> bool, n: nat) returns (picks: seq<nat>)
    requires n >= |items|
    ensures FirstOf(picks, n, |items|, Where(items, keep)) && Gives(items, picks, Kept(items, keep))
  {
    if items == [] {
      picks := [];
    } else {
      var init, last := items[..|items| - 1], items[|items| - 1];
      var before := KeptPicks(init, keep, n);
      picks := KeptMore(init, last, keep, before, n);
      assert init + [last] == items;
    }
  }

  lemma KeptMore<T>(init: seq<T>, last: T, keep: T -> bool, before: seq<nat>, n: nat) returns (picks: seq<nat>)
    requires n > |init| && FirstOf(before, n, |init|, Where(init, keep)) && Gives(init, before, Kept(init, keep))
    ensures FirstOf(picks, n, |init| + 1, Where(init + [last], keep))
    ensures Gives(init + [last], picks, Kept(init + [last], keep))
  {
    var items := init + [last];
    assert items[..|init|] == init && items[|init|] == last;
    FewerPicks(before, n, |init|, Where(init, keep));
    FirstMore(before, n, |init|, Where(init, keep), Where(items, keep));
    picks := if keep(last) then before + [|init|] else before;
    GivesMore(init, last, before, Kept(init, keep));
    assert !keep(last) ==> Kept(items, keep) == Kept(init, keep) + [] == Kept(init, keep);
  }

  lemma GivesMore<T>(init: seq<T>, last: T, picks: seq<nat>, out: seq<T>)
    requires Gives(init, picks, out)
    ensures Gives(init + [last], picks, out) && Gives(init + [last], picks + [|init|], out + [last])
  {}

  /** The first m of all. */
  lemma Few(size: nat, all: seq<nat>, keep: nat -> bool, m: nat) returns (picks: seq<nat>)
    requires 0 < m && FirstOf(all, size, size, keep)
    ensures FirstOf(picks, m, size, keep) && picks == if |all| > m then all[..m] else all
  {
    picks := all;
    forall i: nat | i < size && keep(i) ensures i in all { AllPicked(all, size, size, keep, i); }
    if |all| > m {
      picks := all[..m];
      FirstCut(all, size, m, size, keep);
    }
  }

  /** The first m of the items that something holds of. */
  lemma KeptFew<T>(items: seq<T>, keep: T -> bool, m: nat) returns (picks: seq<nat>)
    requires m > 0
    ensures FirstOf(picks, m, |items|, Where(items, keep))
    ensures Gives(items, picks, if |Kept(items, keep)| > m then Kept(items, keep)[..m] else Kept(items, keep))
  {
    var all := KeptPicks(items, keep, |items|);
    picks := Few(|items|, all, Where(items, keep), m);
  }
}
