/**
 * The pool of backends (`ServerManager`): the periodic sweep that probes
 * every backend, and the rankings `available()`, `all()` and `best()`.
 */
module Pool {
  import opened Wrappers
  import opened Backend
  import opened Ranking

  /** The sweep period, `INTERVAL_DELAY` (6e5 ms, ten minutes). */
  const IntervalDelay := 600000

  /** One backend's probe in a sweep: how it ended and when its classification finished. */
  datatype Probe = Probe(outcome: ProbeOutcome, finishedAt: int)

  /** The pings of `s`, position by position. */
  function Pings(s: seq<LicenseServer>): (keys: seq<int>)
    reads s
    ensures |keys| == |s| && forall i :: 0 <= i < |s| ==> keys[i] == s[i].lastPing
  {
    seq(|s|, i requires 0 <= i < |s| reads s => s[i].lastPing)
  }

  /** The exposed availability of `s`, position by position. */
  function Flags(s: seq<LicenseServer>): (flags: seq<bool>)
    reads s
    ensures |flags| == |s| && forall i :: 0 <= i < |s| ==> flags[i] == s[i].IsExposed()
  {
    seq(|s|, i requires 0 <= i < |s| reads s => s[i].IsExposed())
  }

  /** The backends of `s` at the positions `p`, in that order. */
  function Pick(s: seq<LicenseServer>, p: seq<nat>): (r: seq<LicenseServer>)
    requires forall k :: 0 <= k < |p| ==> p[k] < |s|
    ensures |r| == |p| && forall k :: 0 <= k < |p| ==> r[k] == s[p[k]]
  {
    seq(|p|, k requires 0 <= k < |p| => s[p[k]])
  }

  /** `PickRanked` for the stable ranking of the exposed backends of `s`. */
  lemma AvailableRanked(s: seq<LicenseServer>)
    ensures var p := Rank(Pings(s), Selected(Flags(s)));
      && (forall k :: 0 <= k < |p| ==> p[k] < |s|)
      && var r := Pick(s, p);
      && (forall k :: 0 <= k < |r| ==> r[k] in s && r[k].IsExposed())
      && (forall i :: 0 <= i < |s| && s[i].IsExposed() ==> s[i] in r)
      && SortedByPing(r)
  {
    RankSelected(Pings(s), Flags(s));
    PickRanked(s, Rank(Pings(s), Selected(Flags(s))));
  }

  /** Non-decreasing pings. */
  predicate SortedByPing(s: seq<LicenseServer>)
    reads s
  {
    forall k, l :: 0 <= k < l < |s| ==> s[k].lastPing <= s[l].lastPing
  }

  /** What `Available` promises, carried from positions over to the backends they name. */
  lemma PickRanked(s: seq<LicenseServer>, p: seq<nat>)
    requires forall k :: 0 <= k < |p| ==> p[k] < |s| && s[p[k]].IsExposed()
    requires forall i :: 0 <= i < |s| && s[i].IsExposed() ==> i in p
    requires forall k, l :: 0 <= k < l < |p| ==>
      s[p[k]].lastPing < s[p[l]].lastPing || (s[p[k]].lastPing == s[p[l]].lastPing && p[k] < p[l])
    ensures var r := Pick(s, p);
      && (forall k :: 0 <= k < |r| ==> r[k] in s && r[k].IsExposed())
      && (forall i :: 0 <= i < |s| && s[i].IsExposed() ==> s[i] in r)
      && SortedByPing(r)
  {
    var r := Pick(s, p);
    forall k, l | 0 <= k < l < |r| ensures r[k].lastPing <= r[l].lastPing {
      assert r[k] == s[p[k]] && r[l] == s[p[l]];
    }
    forall i | 0 <= i < |s| && s[i].IsExposed() ensures s[i] in r {
      var k :| 0 <= k < |p| && p[k] == i;
      assert r[k] == s[i];
    }
  }

  predicate Distinct(s: seq<LicenseServer>) {
    forall i, j :: 0 <= i < j < |s| ==> s[i] != s[j]
  }

  class ServerManager {
    const servers: array<LicenseServer>
    var lastChecked: Option<int>

    /** Every backend is a separate object with a consistent record. */
    ghost predicate Valid()
      reads this, servers, servers[..]
    {
      Distinct(servers[..]) && forall i :: 0 <= i < servers.Length ==> servers[i].Valid()
    }

    constructor (servers: array<LicenseServer>)
      requires Distinct(servers[..]) && forall i :: 0 <= i < servers.Length ==> servers[i].Valid()
      ensures this.servers == servers && lastChecked == None && Valid()
    {
      this.servers := servers;
      lastChecked := None;
    }

    /** `lastChecked()`: the start of the last sweep, none before the first. */
    function LastChecked(): (t: Option<int>)
      reads this
      ensures t == lastChecked
    {
      lastChecked
    }

    /**
     * `check()`: stamp the sweep, then probe every backend, once each;
     * `probes[i]` is what the probe of `servers[i]` ended with.
     */
    method Check(sweepAt: int, probes: seq<Probe>)
      requires Valid() && |probes| == servers.Length
      modifies this, servers[..]
      ensures Valid() && lastChecked == Some(sweepAt)
      ensures forall i :: 0 <= i < servers.Length ==>
        servers[i].State() == Probed(old(servers[i].State()), probes[i].outcome, probes[i].finishedAt)
    {
      lastChecked := Some(sweepAt);
      for i := 0 to servers.Length
        invariant lastChecked == Some(sweepAt) && Distinct(servers[..])
        invariant forall k :: 0 <= k < servers.Length ==> servers[k].Valid()
        invariant forall k :: 0 <= k < i ==>
          servers[k].State() == Probed(old(servers[k].State()), probes[k].outcome, probes[k].finishedAt)
        invariant forall k :: i <= k < servers.Length ==> servers[k].State() == old(servers[k].State())
      {
        servers[i].Check(probes[i].outcome, probes[i].finishedAt);
      }
    }

    /**
     * `available()` as positions: exactly the exposed-available backends,
     * each once, by ascending ping, equal pings in array order.
     */
    function AvailableOrder(): (p: seq<nat>)
      reads this, servers, servers[..]
      ensures forall k :: 0 <= k < |p| ==> p[k] < servers.Length && servers[p[k]].IsExposed()
      ensures forall i :: 0 <= i < servers.Length && servers[i].IsExposed() ==> i in p
      ensures forall k, l :: 0 <= k < l < |p| ==>
        servers[p[k]].lastPing < servers[p[l]].lastPing ||
        (servers[p[k]].lastPing == servers[p[l]].lastPing && p[k] < p[l])
    {
      RankSelected(Pings(servers[..]), Flags(servers[..]));
      Rank(Pings(servers[..]), Selected(Flags(servers[..])))
    }

    /** `available()`: a fresh filtered and sorted list; the array itself is only read. */
    function Available(): (r: seq<LicenseServer>)
      reads this, servers, servers[..]
      ensures var s := servers[..];
        && (forall k :: 0 <= k < |r| ==> r[k] in s && r[k].IsExposed())
        && (forall i :: 0 <= i < |s| && s[i].IsExposed() ==> s[i] in r)
        && SortedByPing(r)
      ensures r == Pick(servers[..], AvailableOrder())
    {
      var s := servers[..];
      AvailableRanked(s);
      Pick(s, Rank(Pings(s), Selected(Flags(s))))
    }

    /** `all()` as positions: the stable ranking of the whole array. */
    function AllOrder(): (p: seq<nat>)
      reads this, servers, servers[..]
      ensures InBounds(Pings(servers[..]), p) && |p| == servers.Length
      ensures multiset(p) == multiset(Range(servers.Length))
      ensures Ordered(Pings(servers[..]), p)
    {
      RankOrdered(Pings(servers[..]), Range(servers.Length));
      var p := Rank(Pings(servers[..]), Range(servers.Length));
      assert |p| == |multiset(p)| == |multiset(Range(servers.Length))| == servers.Length;
      p
    }

    /**
     * `best()`: null exactly when no backend is available; otherwise the
     * available backend with the lowest ping, the earliest among equals.
     */
    function Best(): (b: LicenseServer?)
      reads this, servers, servers[..]
      ensures b == null <==> Available() == []
      ensures b == null <==> forall i :: 0 <= i < servers.Length ==> !servers[i].IsExposed()
      ensures b != null ==> |AvailableOrder()| > 0 && b == servers[AvailableOrder()[0]] && b.IsExposed()
      ensures b != null ==> b in servers[..]
      ensures b != null ==> forall i :: 0 <= i < servers.Length && servers[i].IsExposed() ==>
        b.lastPing < servers[i].lastPing ||
        (b.lastPing == servers[i].lastPing && AvailableOrder()[0] <= i)
    {
      var r := Available();
      var p := AvailableOrder();
      if |r| > 0 then
        assert r[0] == servers[p[0]];
        r[0]
      else
        null
    }

    /**
     * `all()`: sorts the pool's own array in place, stably by ping, and
     * returns that same array. The sort is an insertion sort by adjacent
     * swaps; `pos[k]` records where the backend now at `k` stood before.
     */
    method All() returns (r: array<LicenseServer>)
      requires Valid()
      modifies servers
      ensures r == servers && Valid()
      ensures servers[..] == Pick(old(servers[..]), old(AllOrder()))
      ensures multiset(servers[..]) == multiset(old(servers[..]))
      ensures SortedByPing(servers[..])
    {
      ghost var orig := servers[..];
      ghost var keys := Pings(orig);
      ghost var pos := InsertionSort(orig, keys);
      SortDone(servers[..], orig, keys, pos);
      r := servers;
    }

    /** The rounds of the insertion sort; `pos[k]` is where the backend now at `k` stood before. */
    method InsertionSort(ghost orig: seq<LicenseServer>, ghost keys: seq<int>) returns (ghost pos: seq<nat>)
      requires orig == servers[..] && keys == Pings(orig)
      modifies servers
      ensures OuterInv(keys, pos, |orig|, |orig|) && multiset(pos) == multiset(Range(|orig|))
      ensures Tracks(servers[..], orig, pos) && multiset(servers[..]) == multiset(orig)
    {
      var n := servers.Length;
      pos := Range(n);
      SortStart(servers[..], keys);
      for i := 0 to n
        invariant OuterInv(keys, pos, n, i) && multiset(pos) == multiset(Range(n))
        invariant Tracks(servers[..], orig, pos) && multiset(servers[..]) == multiset(orig)
        invariant forall x :: 0 <= x < n ==> keys[x] == orig[x].lastPing
      {
        pos := Sink(i, orig, keys, pos);
      }
    }

    /** One round of the insertion sort: swap the backend at `i` down past every higher ping. */
    method Sink(i: nat, ghost orig: seq<LicenseServer>, ghost keys: seq<int>, ghost pos: seq<nat>)
      returns (ghost pos': seq<nat>)
      requires i < servers.Length && OuterInv(keys, pos, servers.Length, i)
      requires Tracks(servers[..], orig, pos)
      requires forall x :: 0 <= x < servers.Length ==> keys[x] == orig[x].lastPing
      modifies servers
      ensures OuterInv(keys, pos', servers.Length, i + 1) && multiset(pos') == multiset(pos)
      ensures Tracks(servers[..], orig, pos') && multiset(servers[..]) == multiset(old(servers[..]))
    {
      var n := servers.Length;
      InnerStart(keys, pos, n, i);
      pos' := pos;
      var j: nat := i;
      while j > 0 && servers[j - 1].lastPing > servers[j].lastPing
        invariant InnerInv(keys, pos', n, i, j) && multiset(pos') == multiset(pos)
        invariant Tracks(servers[..], orig, pos') && multiset(servers[..]) == multiset(old(servers[..]))
      {
        assert servers[j - 1] == orig[pos'[j - 1]] && servers[j] == orig[pos'[j]];
        InnerStep(keys, pos', n, i, j);
        SwapTracks(servers[..], orig, pos', j);
        ghost var swapped := Swap(servers[..], j);
        servers[j - 1], servers[j] := servers[j], servers[j - 1];
        assert servers[..] == swapped;
        pos' := Swap(pos', j);
        j := j - 1;
      }
      assert j > 0 ==> servers[j - 1] == orig[pos'[j - 1]] && servers[j] == orig[pos'[j]];
      InnerDone(keys, pos', n, i, j);
    }
  }

  /** `a` is `orig` rearranged: the element at `k` stood at `pos[k]`. */
  ghost predicate Tracks(a: seq<LicenseServer>, orig: seq<LicenseServer>, pos: seq<nat>) {
    |a| == |pos| == |orig| && forall k :: 0 <= k < |a| ==> pos[k] < |orig| && a[k] == orig[pos[k]]
  }

  /** Before the sort, every backend stands where it started. */
  lemma SortStart(a: seq<LicenseServer>, keys: seq<int>)
    requires keys == Pings(a)
    ensures OuterInv(keys, Range(|a|), |a|, 0) && Tracks(a, a, Range(|a|))
    ensures forall x :: 0 <= x < |a| ==> keys[x] == a[x].lastPing
  {
  }

  /** What the finished insertion sort establishes about the rearranged array `a`. */
  lemma SortDone(a: seq<LicenseServer>, orig: seq<LicenseServer>, keys: seq<int>, pos: seq<nat>)
    requires OuterInv(keys, pos, |orig|, |orig|) && multiset(pos) == multiset(Range(|orig|))
    requires Tracks(a, orig, pos) && keys == Pings(orig)
    requires Distinct(orig) && forall x :: 0 <= x < |orig| ==> orig[x].Valid()
    ensures a == Pick(orig, Rank(keys, Range(|orig|)))
    ensures Distinct(a) && SortedByPing(a) && forall k :: 0 <= k < |a| ==> a[k].Valid()
  {
    var n := |orig|;
    OuterDone(keys, pos, n);
    RankCharacterised(keys, Range(n), pos);
    assert a == Pick(orig, pos);
    RearrangedDistinct(a, orig, pos);
    RearrangedSorted(a, orig, keys, pos);
    forall k | 0 <= k < n ensures a[k].Valid() {
      assert a[k] == orig[pos[k]];
    }
  }

  /** Rearranging distinct backends by distinct positions keeps them distinct. */
  lemma RearrangedDistinct(a: seq<LicenseServer>, orig: seq<LicenseServer>, pos: seq<nat>)
    requires Tracks(a, orig, pos) && Distinct(orig)
    requires forall k, l :: 0 <= k < l < |pos| ==> pos[k] != pos[l]
    ensures Distinct(a)
  {
    forall k, l | 0 <= k < l < |a| ensures a[k] != a[l] {
      if pos[k] < pos[l] {
        assert orig[pos[k]] != orig[pos[l]];
      } else {
        assert orig[pos[l]] != orig[pos[k]];
      }
    }
  }

  /** Rearranging by an ordered sequence of positions sorts by ping. */
  lemma RearrangedSorted(a: seq<LicenseServer>, orig: seq<LicenseServer>, keys: seq<int>, pos: seq<nat>)
    requires Tracks(a, orig, pos) && |keys| == |orig|
    requires forall x :: 0 <= x < |orig| ==> keys[x] == orig[x].lastPing
    requires InBounds(keys, pos) && Ordered(keys, pos)
    ensures SortedByPing(a)
  {
    forall k, l | 0 <= k < l < |a| ensures a[k].lastPing <= a[l].lastPing {
      assert Before(keys, pos[k], pos[l]);
    }
  }

  /** Exchange the entries at `j - 1` and `j`. */
  function Swap<T>(s: seq<T>, j: nat): (r: seq<T>)
    requires 0 < j < |s|
    ensures |r| == |s| && multiset(r) == multiset(s)
    ensures r[j - 1] == s[j] && r[j] == s[j - 1] && forall k :: 0 <= k < |s| && k != j - 1 && k != j ==> r[k] == s[k]
  {
    s[j - 1 := s[j]][j := s[j - 1]]
  }

  lemma SwapTracks(a: seq<LicenseServer>, orig: seq<LicenseServer>, pos: seq<nat>, j: nat)
    requires Tracks(a, orig, pos) && 0 < j < |a|
    ensures Tracks(Swap(a, j), orig, Swap(pos, j))
  {
  }

  // ----- the insertion sort's invariants, on positions only -----

  /** After `i` rounds: the first `i` slots hold positions below `i`, ordered; the rest untouched. */
  ghost predicate OuterInv(keys: seq<int>, pos: seq<nat>, n: nat, i: nat) {
    && |keys| == n && |pos| == n && i <= n
    && (forall k :: 0 <= k < n ==> pos[k] < n)
    && (forall k :: i <= k < n ==> pos[k] == k)
    && (forall k :: 0 <= k < i ==> pos[k] < i)
    && (forall k, l :: 0 <= k < l < i ==> Before(keys, pos[k], pos[l]))
  }

  /** During round `i`: position `i` sinks through slot `j`; everything else in `0..i` is ordered. */
  ghost predicate InnerInv(keys: seq<int>, pos: seq<nat>, n: nat, i: nat, j: nat) {
    && |keys| == n && |pos| == n && j <= i < n
    && (forall k :: 0 <= k < n ==> pos[k] < n)
    && (forall k :: i < k < n ==> pos[k] == k)
    && pos[j] == i
    && (forall k :: 0 <= k <= i && k != j ==> pos[k] < i)
    && (forall k, l :: 0 <= k < l <= i && k != j && l != j ==> Before(keys, pos[k], pos[l]))
    && (forall l :: j < l <= i ==> Before(keys, pos[j], pos[l]))
  }

  lemma InnerStart(keys: seq<int>, pos: seq<nat>, n: nat, i: nat)
    requires OuterInv(keys, pos, n, i) && i < n
    ensures InnerInv(keys, pos, n, i, i)
  {
  }

  lemma InnerStep(keys: seq<int>, pos: seq<nat>, n: nat, i: nat, j: nat)
    requires InnerInv(keys, pos, n, i, j) && 0 < j && keys[pos[j - 1]] > keys[pos[j]]
    ensures InnerInv(keys, Swap(pos, j), n, i, j - 1)
  {
  }

  lemma InnerDone(keys: seq<int>, pos: seq<nat>, n: nat, i: nat, j: nat)
    requires InnerInv(keys, pos, n, i, j) && (j == 0 || keys[pos[j - 1]] <= keys[pos[j]])
    ensures OuterInv(keys, pos, n, i + 1)
  {
  }

  lemma OuterDone(keys: seq<int>, pos: seq<nat>, n: nat)
    requires OuterInv(keys, pos, n, n)
    ensures InBounds(keys, pos) && Ordered(keys, pos)
  {
  }
}
