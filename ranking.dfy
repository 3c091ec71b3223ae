/**
 * Ranking of backends by ping, on plain integers.
 *
 * A pool is seen here through two snapshots taken at the same moment:
 * `keys[i]` is the `lastPing` of the backend at position `i` of the pool's
 * array and `flags[i]` its exposed availability. A ranking is a sequence of
 * positions. `Rank` is the stable insertion sort that ECMAScript requires of
 * `Array.prototype.sort` (ECMA-262 10th edition, section 22.1.3.27): it
 * compares pings only and never moves an element past one with an equal ping.
 */
module Ranking {

  /** All positions are valid indices of `keys`. */
  predicate InBounds(keys: seq<int>, idx: seq<nat>) {
    forall k :: 0 <= k < |idx| ==> idx[k] < |keys|
  }

  /** Positions in strictly increasing order: the order of the pool's array. */
  predicate Increasing(idx: seq<nat>) {
    forall k, l :: 0 <= k < l < |idx| ==> idx[k] < idx[l]
  }

  /** Position `a` comes before `b`: a lower ping, or the same ping and earlier in the array. */
  predicate Before(keys: seq<int>, a: nat, b: nat)
    requires a < |keys| && b < |keys|
  {
    keys[a] < keys[b] || (keys[a] == keys[b] && a < b)
  }

  /**
   * Sorted by ping, with equal pings in array order. This is what a stable
   * sort of an increasing sequence of positions produces.
   */
  predicate Ordered(keys: seq<int>, r: seq<nat>)
    requires InBounds(keys, r)
  {
    forall k, l :: 0 <= k < l < |r| ==> Before(keys, r[k], r[l])
  }

  /** The positions `0 .. n-1` in order (the whole array). */
  function Range(n: nat): (r: seq<nat>)
    ensures |r| == n && forall k :: 0 <= k < n ==> r[k] == k
  {
    if n == 0 then [] else Range(n - 1) + [n - 1]
  }

  /** The positions whose flag is set, in order (`Array.prototype.filter`). */
  function Selected(flags: seq<bool>): (r: seq<nat>)
    ensures Increasing(r)
    ensures forall k :: 0 <= k < |r| ==> r[k] < |flags| && flags[r[k]]
    ensures forall i :: 0 <= i < |flags| && flags[i] ==> i in r
  {
    if |flags| == 0 then []
    else
      var init := Selected(flags[..|flags| - 1]);
      assert forall k :: 0 <= k < |init| ==> flags[init[k]];
      if flags[|flags| - 1] then init + [|flags| - 1] else init
  }

  /** Insert `x` after every element of `r` whose ping is not greater than its own. */
  function Insert(keys: seq<int>, x: nat, r: seq<nat>): (res: seq<nat>)
    requires x < |keys| && InBounds(keys, r)
    ensures InBounds(keys, res) && multiset(res) == multiset(r) + multiset{x}
    decreases |r|
  {
    if r == [] then [x]
    else if keys[r[0]] <= keys[x] then
      assert r == [r[0]] + r[1..];
      [r[0]] + Insert(keys, x, r[1..])
    else [x] + r
  }

  /** Stable insertion sort of the positions `idx` by ping. */
  function Rank(keys: seq<int>, idx: seq<nat>): (r: seq<nat>)
    requires InBounds(keys, idx)
    ensures InBounds(keys, r) && multiset(r) == multiset(idx)
    decreases |idx|
  {
    if idx == [] then []
    else
      var init := idx[..|idx| - 1];
      assert idx == init + [idx[|idx| - 1]];
      Insert(keys, idx[|idx| - 1], Rank(keys, init))
  }

  /** Inserting a position later than all of an ordered ranking keeps it ordered. */
  lemma {:induction false} InsertOrdered(keys: seq<int>, x: nat, r: seq<nat>)
    requires x < |keys| && InBounds(keys, r) && Ordered(keys, r)
    requires forall k :: 0 <= k < |r| ==> r[k] < x
    ensures Ordered(keys, Insert(keys, x, r))
    decreases |r|
  {
    if r != [] {
      var tail := r[1..];
      OrderedTail(keys, r);
      if keys[r[0]] <= keys[x] {
        InsertOrdered(keys, x, tail);
        forall l | 0 <= l < |tail| ensures Before(keys, r[0], tail[l]) {
          assert tail[l] == r[l + 1];
        }
        InsertBounded(keys, r[0], x, tail);
      } else {
        forall l | 1 <= l < |r| ensures Before(keys, x, r[l]) {
          assert Before(keys, r[0], r[l]);
        }
      }
    }
  }

  /** A position placed before `x` and before all of `r` stays before everything `Insert` yields. */
  lemma {:induction false} InsertBounded(keys: seq<int>, a: nat, x: nat, r: seq<nat>)
    requires a < |keys| && x < |keys| && InBounds(keys, r)
    requires Before(keys, a, x) && forall l :: 0 <= l < |r| ==> Before(keys, a, r[l])
    ensures forall l :: 0 <= l < |Insert(keys, x, r)| ==> Before(keys, a, Insert(keys, x, r)[l])
    decreases |r|
  {
    if r != [] && keys[r[0]] <= keys[x] {
      InsertBounded(keys, a, x, r[1..]);
    }
  }

  /** The tail of an ordered ranking is ordered. */
  lemma OrderedTail(keys: seq<int>, a: seq<nat>)
    requires InBounds(keys, a) && Ordered(keys, a) && a != []
    ensures Ordered(keys, a[1..])
  {
    forall k, l | 0 <= k < l < |a| - 1 ensures Before(keys, a[1..][k], a[1..][l]) {
      assert a[1..][k] == a[k + 1] && a[1..][l] == a[l + 1];
    }
  }

  /**
   * Stability: ranking positions given in array order yields a sequence
   * sorted by ping in which equal pings keep their array order.
   */
  lemma {:induction false} RankOrdered(keys: seq<int>, idx: seq<nat>)
    requires InBounds(keys, idx) && Increasing(idx)
    ensures Ordered(keys, Rank(keys, idx))
    decreases |idx|
  {
    if idx != [] {
      var init := idx[..|idx| - 1];
      var x := idx[|idx| - 1];
      RankOrdered(keys, init);
      var r := Rank(keys, init);
      forall k | 0 <= k < |r| ensures r[k] < x {
        assert r[k] in multiset(init);
      }
      InsertOrdered(keys, x, r);
    }
  }

  /** Two ordered rankings of the same positions are equal: the order is a strict total one. */
  lemma {:induction false} OrderedUnique(keys: seq<int>, a: seq<nat>, b: seq<nat>)
    requires InBounds(keys, a) && InBounds(keys, b)
    requires Ordered(keys, a) && Ordered(keys, b) && multiset(a) == multiset(b)
    ensures a == b
    decreases |a|
  {
    assert |a| == |multiset(a)| == |multiset(b)| == |b|;
    if a != [] {
      SameFirst(keys, a, b);
      SameTail(a, b);
      OrderedTail(keys, a);
      OrderedTail(keys, b);
      OrderedUnique(keys, a[1..], b[1..]);
      assert a == [a[0]] + a[1..] && b == [b[0]] + b[1..];
    }
  }

  /** Equal multisets with equal heads have equal multisets of tails. */
  lemma SameTail(a: seq<nat>, b: seq<nat>)
    requires a != [] && b != [] && a[0] == b[0] && multiset(a) == multiset(b)
    ensures multiset(a[1..]) == multiset(b[1..])
  {
    assert a == [a[0]] + a[1..] && b == [b[0]] + b[1..];
    assert multiset(a[1..]) == multiset(a) - multiset{a[0]};
    assert multiset(b[1..]) == multiset(b) - multiset{b[0]};
  }

  /** Two ordered rankings of the same positions start with the same position. */
  lemma SameFirst(keys: seq<int>, a: seq<nat>, b: seq<nat>)
    requires InBounds(keys, a) && InBounds(keys, b) && a != []
    requires Ordered(keys, a) && Ordered(keys, b) && multiset(a) == multiset(b)
    ensures b != [] && a[0] == b[0]
  {
    assert a[0] in multiset(b);
    var i :| 0 <= i < |b| && b[i] == a[0];
    assert b[0] in multiset(a);
    var j :| 0 <= j < |a| && a[j] == b[0];
    if a[0] != b[0] {
      assert false;
    }
  }

  /** Any ordered permutation of the positions `idx` is their stable ranking. */
  lemma RankCharacterised(keys: seq<int>, idx: seq<nat>, r: seq<nat>)
    requires InBounds(keys, idx) && Increasing(idx)
    requires InBounds(keys, r) && Ordered(keys, r) && multiset(r) == multiset(idx)
    ensures r == Rank(keys, idx)
  {
    RankOrdered(keys, idx);
    OrderedUnique(keys, r, Rank(keys, idx));
  }

  /**
   * The ranking of the flagged positions holds exactly those positions, sorted
   * by ping, equal pings in array order.
   */
  lemma RankSelected(keys: seq<int>, flags: seq<bool>)
    requires |flags| == |keys|
    ensures var r := Rank(keys, Selected(flags));
      && (forall k :: 0 <= k < |r| ==> r[k] < |keys| && flags[r[k]])
      && (forall i :: 0 <= i < |flags| && flags[i] ==> i in r)
      && (forall k, l :: 0 <= k < l < |r| ==> keys[r[k]] < keys[r[l]] || (keys[r[k]] == keys[r[l]] && r[k] < r[l]))
  {
    var idx := Selected(flags);
    var r := Rank(keys, idx);
    RankOrdered(keys, idx);
    forall k | 0 <= k < |r| ensures flags[r[k]] {
      assert r[k] in multiset(idx);
    }
    forall i | 0 <= i < |flags| && flags[i] ensures i in r {
      assert i in multiset(idx);
    }
    forall k, l | 0 <= k < l < |r| ensures keys[r[k]] < keys[r[l]] || (keys[r[k]] == keys[r[l]] && r[k] < r[l]) {
      assert Before(keys, r[k], r[l]);
    }
  }

  /** The first of the ranking is the available position with the lowest ping, the earliest among equals. */
  lemma RankFirstIsBest(keys: seq<int>, flags: seq<bool>)
    requires |flags| == |keys|
    ensures var r := Rank(keys, Selected(flags));
      (r == [] <==> forall i :: 0 <= i < |flags| ==> !flags[i]) &&
      (r != [] ==> flags[r[0]] && forall i :: 0 <= i < |flags| && flags[i] && i != r[0] ==> Before(keys, r[0], i))
  {
    var idx := Selected(flags);
    var r := Rank(keys, idx);
    RankOrdered(keys, idx);
    forall i | 0 <= i < |flags| && flags[i] ensures i in r {
      assert i in multiset(idx);
    }
    if r != [] {
      assert r[0] in multiset(idx);
      forall i | 0 <= i < |flags| && flags[i] && i != r[0] ensures Before(keys, r[0], i) {
        var l :| 0 <= l < |r| && r[l] == i;
      }
    }
  }

  /** Two backends: 50 ms and available, 10 ms and unavailable; the available one ranks first. */
  lemma SlowAvailableBeatsFastUnavailable()
    ensures Rank([50, 10], Selected([true, false])) == [0]
  {
    assert [true, false][..1] == [true];
    assert [true] [..0] == [];
  }
}
