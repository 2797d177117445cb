/** The topology schemes: custom, binomial and k-ary.  Each writes the parent array in place. */
module Builders {
  import opened Tree
  import opened Topology
  import opened Wrappers

  /* ---- the default, flat tree ---- */

  function Flat(size: nat): seq<int>
  {
    seq(size, r => if r == 0 then -1 else 0)
  }

  lemma FlatIsTree(size: nat)
    requires size > 0
    ensures IsTree(Flat(size))
  {
    var level := seq(size, r => if r == 0 then 0 else 1);
    assert Levels(Flat(size), level);
  }

  /* ---- custom: parents named by a host table ---- */

  /** One entry of the host table; either key may be missing. */
  datatype HostEntry = HostEntry(host: Option<string>, parent: Option<string>)

  predicate Configured(e: HostEntry)
  {
    e.host.Some? && e.parent.Some?
  }

  /** The first rank whose entry has this host name, or -1. */
  function FindHost(hosts: seq<HostEntry>, name: string): (rank: int)
    ensures -1 <= rank < |hosts|
    ensures rank >= 0 ==> hosts[rank].host == Some(name)
    ensures forall i :: 0 <= i < |hosts| && hosts[i].host == Some(name) ==> 0 <= rank <= i
  {
    if hosts == [] then -1 else
      var n := |hosts| - 1;
      var rank := FindHost(hosts[..n], name);
      if rank >= 0 then rank else if hosts[n].host == Some(name) then n else -1
  }

  method GetHostRank(hosts: seq<HostEntry>, name: string) returns (rank: int)
    ensures rank == FindHost(hosts, name)
  {
    for index := 0 to |hosts|
      invariant forall i :: 0 <= i < index ==> hosts[i].host != Some(name)
    {
      if hosts[index].host == Some(name) {
        return index;
      }
    }
    return -1;
  }

  /** Every entry that names a parent is for a rank in 1..size-1 and names a host of a rank
      in 0..size-1. */
  predicate WellFormed(hosts: seq<HostEntry>, size: nat)
  {
    forall i :: 0 <= i < |hosts| && Configured(hosts[i]) ==>
      0 < i < size && 0 <= FindHost(hosts, hosts[i].parent.value) < size
  }

  /** The parent array the first `n` entries of the table ask for; ranks that name no parent
      stay under rank 0. */
  function Requested(hosts: seq<HostEntry>, size: nat, n: nat): seq<int>
  {
    seq(size, r =>
      if r == 0 then -1
      else if 0 <= r < n && r < |hosts| && Configured(hosts[r]) then FindHost(hosts, hosts[r].parent.value)
      else 0)
  }

  /** The table is acceptable when it is well formed and all it asks for is a tree. */
  ghost predicate Acceptable(hosts: seq<HostEntry>, size: nat)
  {
    WellFormed(hosts, size) && IsTree(Requested(hosts, size, |hosts|))
  }

  lemma WithinIsDeeper(parent: seq<int>, x: int, r: int)
    requires IsTree(parent) && IsRank(parent, x) && Within(parent, x, r)
    ensures IsRank(parent, r) && Level(parent, r) <= Level(parent, x)
  {
    if x != r {
      BelowIsDeeper(parent, x, r);
    }
  }

  /** The level of `x` after `r` and everything below it has been moved under `q`. */
  ghost function MovedLevel(parent: seq<int>, r: int, q: int, x: int): nat
    requires IsTree(parent) && IsRank(parent, r) && IsRank(parent, q) && IsRank(parent, x)
  {
    if Within(parent, x, r) then
      WithinIsDeeper(parent, x, r);
      Level(parent, q) + 1 + Level(parent, x) - Level(parent, r)
    else Level(parent, x)
  }

  /** Re-parenting `r` keeps the tree, as long as the new parent is not `r` or below it. */
  lemma MovingKeepsTree(parent: seq<int>, r: int, q: int)
    requires IsTree(parent) && IsRank(parent, r) && IsRank(parent, q) && r != 0
    requires !Within(parent, q, r)
    ensures IsTree(parent[r := q])
  {
    var level := seq(|parent|, x requires 0 <= x < |parent| => MovedLevel(parent, r, q, x));
    forall x | 1 <= x < |parent| && x != r
      ensures level[x] == level[parent[x]] + 1
    {
      assert Within(parent, x, r) <==> Within(parent, parent[x], r);
    }
    if Within(parent, 0, r) {
      assert false;
    }
    assert Levels(parent[r := q], level);
  }

  /** In a partly filled table, a chain that ends at a rank other than 0 runs only over entries
      already processed, so it survives to the end. */
  lemma {:induction false} ChainsPersist(hosts: seq<HostEntry>, size: nat, n: nat, level: seq<nat>, x: int, r: int)
    requires WellFormed(hosts, size) && n <= |hosts|
    requires IsTree(Requested(hosts, size, n))
    requires Levels(Requested(hosts, size, |hosts|), level)
    requires 0 <= x < size && r > 0 && Below(Requested(hosts, size, n), x, r)
    ensures 0 <= r < size && level[x] > level[r]
    decreases SomeLevels(Requested(hosts, size, n))[x]
  {
    var now, all := Requested(hosts, size, n), Requested(hosts, size, |hosts|);
    assert now[x] != 0;
    assert level[x] == level[all[x]] + 1;
    if now[x] != r {
      ChainsPersist(hosts, size, n, level, now[x], r);
    }
  }

  /** If an entry fails the cycle test, what the whole table asks for is not a tree. */
  lemma CycleTestIsExact(hosts: seq<HostEntry>, size: nat, rank: int)
    requires WellFormed(hosts, size) && 0 < rank < |hosts| && Configured(hosts[rank])
    requires IsTree(Requested(hosts, size, rank))
    requires Within(Requested(hosts, size, rank), FindHost(hosts, hosts[rank].parent.value), rank)
    ensures !IsTree(Requested(hosts, size, |hosts|))
  {
    var q, all := FindHost(hosts, hosts[rank].parent.value), Requested(hosts, size, |hosts|);
    assert all[rank] == q;
    if IsTree(all) {
      var level := SomeLevels(all);
      if q != rank {
        ChainsPersist(hosts, size, rank, level, q, rank);
      }
    }
  }

  /** The entries before `rank` name ranks in range. */
  ghost predicate WellFormedTo(hosts: seq<HostEntry>, size: nat, rank: nat)
  {
    forall i :: 0 <= i < rank && i < |hosts| && Configured(hosts[i]) ==>
      0 < i < size && 0 <= FindHost(hosts, hosts[i].parent.value) < size
  }

  /** One entry of the table.  It is refused only if the table is not acceptable. */
  method CustomInitOne(hosts: seq<HostEntry>, rank: nat, node: array<int>) returns (ok: bool)
    requires rank < |hosts| && node.Length > 0
    requires node[..] == Requested(hosts, node.Length, rank) && IsTree(node[..])
    modifies node
    ensures IsTree(node[..])
    ensures ok ==> node[..] == Requested(hosts, node.Length, rank + 1)
    ensures ok && WellFormedTo(hosts, node.Length, rank) ==> WellFormedTo(hosts, node.Length, rank + 1)
    ensures !ok ==> !Acceptable(hosts, node.Length)
  {
    ghost var size := node.Length;
    if !Configured(hosts[rank]) {
      assert node[..] == Requested(hosts, size, rank + 1);
      return true;
    }
    if rank == 0 || rank >= node.Length {
      return false;
    }
    var parentRank := GetHostRank(hosts, hosts[rank].parent.value);
    if parentRank < 0 || parentRank >= node.Length {
      return false;
    }
    IsDescendantOfMeansBelow(node[..], parentRank, rank);
    if parentRank == rank || IsDescendantOf(node[..], parentRank, rank) {
      if WellFormed(hosts, size) {
        CycleTestIsExact(hosts, size, rank);
      }
      return false;
    }
    MovingKeepsTree(node[..], rank, parentRank);
    node[rank] := parentRank;
    assert node[..] == Requested(hosts, size, rank)[rank := parentRank];
    assert node[..] == Requested(hosts, size, rank + 1);
    return true;
  }

  method CustomInit(path: Option<string>, bootHosts: Option<seq<HostEntry>>, node: array<int>) returns (ok: bool)
    requires node.Length > 0 && node[..] == Flat(node.Length)
    modifies node
    ensures IsTree(node[..])
    ensures ok <==> (path.Some? ==> path.value == "") && (bootHosts.Some? ==> Acceptable(bootHosts.value, node.Length))
    ensures ok && bootHosts.Some? ==> node[..] == Requested(bootHosts.value, node.Length, |bootHosts.value|)
    ensures bootHosts.None? ==> node[..] == Flat(node.Length)
  {
    FlatIsTree(node.Length);
    if path.Some? && path.value != "" {
      return false;
    }
    if bootHosts.None? {
      return true;
    }
    var hosts := bootHosts.value;
    assert node[..] == Requested(hosts, node.Length, 0);
    for rank := 0 to |hosts|
      invariant node[..] == Requested(hosts, node.Length, rank)
      invariant IsTree(node[..])
      invariant WellFormedTo(hosts, node.Length, rank)
    {
      var placed := CustomInitOne(hosts, rank, node);
      if !placed {
        return false;
      }
    }
    return true;
  }

  /* ---- trees whose parents are numbered below their children ---- */

  ghost predicate ParentsBelow(parent: seq<int>)
  {
    |parent| > 0 && parent[0] == -1 && forall r :: 1 <= r < |parent| ==> 0 <= parent[r] < r
  }

  ghost function CountedLevels(parent: seq<int>, n: nat): (level: seq<nat>)
    requires ParentsBelow(parent) && n <= |parent|
    ensures |level| == n
    ensures forall r :: 0 <= r < n ==> level[r] == if r == 0 then 0 else level[parent[r]] + 1
  {
    if n == 0 then [] else
      var level := CountedLevels(parent, n - 1);
      level + [if n == 1 then 0 else level[parent[n - 1]] + 1]
  }

  lemma ParentsBelowIsTree(parent: seq<int>)
    requires ParentsBelow(parent)
    ensures IsTree(parent)
  {
    assert Levels(parent, CountedLevels(parent, |parent|));
  }

  /* ---- binomial ---- */

  /** The values of a C int; sums of this type must stay in range. */
  type int32 = x: int | -0x8000_0000 <= x < 0x8000_0000

  function Pow2(n: nat): (p: nat)
    ensures p >= 1
  {
    if n == 0 then 1 else 2 * Pow2(n - 1)
  }

  lemma {:induction false} Pow2Monotone(m: nat, n: nat)
    requires m <= n
    ensures Pow2(m) <= Pow2(n)
  {
    if m < n {
      Pow2Monotone(m, n - 1);
    }
  }

  lemma Pow2Fits(n: nat)
    requires n <= 30
    ensures Pow2(n) <= 0x4000_0000
    ensures n < 30 ==> Pow2(n) <= 0x2000_0000
    ensures n == 30 ==> Pow2(n) == 0x4000_0000
  {
    assert Pow2(10) == 1024;
    assert Pow2(20) == 1048576;
    assert Pow2(30) == 2 * Pow2(29);
    Pow2Monotone(n, 30);
    if n < 30 {
      Pow2Monotone(n, 29);
    }
  }

  function ClearLowestBit(r: nat): (q: nat)
    requires r > 0
    ensures q < r
  {
    if r % 2 == 1 then r - 1 else 2 * ClearLowestBit(r / 2)
  }

  function BitCount(r: nat): nat
  {
    if r == 0 then 0 else r % 2 + BitCount(r / 2)
  }

  predicate LowBitsClear(r: nat, k: nat)
  {
    k == 0 || (r % 2 == 0 && LowBitsClear(r / 2, k - 1))
  }

  lemma {:induction false} FewerLowBitsClear(r: nat, j: nat, k: nat)
    requires LowBitsClear(r, k) && j <= k
    ensures LowBitsClear(r, j)
  {
    if j > 0 {
      FewerLowBitsClear(r / 2, j - 1, k - 1);
    }
  }

  /** Setting bit `j` of a number whose bits up to `j` are clear makes it the lowest set bit. */
  lemma {:induction false} SetBitIsLowest(root: nat, j: nat)
    requires LowBitsClear(root, j + 1)
    ensures LowBitsClear(root + Pow2(j), j)
    ensures ClearLowestBit(root + Pow2(j)) == root
  {
    if j > 0 {
      var half := root / 2;
      SetBitIsLowest(half, j - 1);
      assert root + Pow2(j) == 2 * (half + Pow2(j - 1));
    }
  }

  lemma {:induction false} ClearingLosesOneBit(r: nat)
    requires r > 0
    ensures BitCount(r) == BitCount(ClearLowestBit(r)) + 1
  {
    if r % 2 == 0 {
      ClearingLosesOneBit(r / 2);
      assert ClearLowestBit(r) / 2 == ClearLowestBit(r / 2);
    } else if r > 1 {
      assert (r - 1) / 2 == r / 2;
    }
  }

  lemma {:induction false} BitCountBound(r: nat, k: nat)
    requires r < Pow2(k)
    ensures BitCount(r) <= k
  {
    if r > 0 {
      BitCountBound(r / 2, k - 1);
    }
  }

  /** The number of dimensions the source picks: the least k with size <= 2^k, or -1 when
      that would not fit an int. */
  method BinomialSmallestK(size: int) returns (k: int)
    requires size >= 1
    ensures -1 <= k <= 30
    ensures k >= 0 ==> size <= Pow2(k) && forall j: nat :: j < k ==> Pow2(j) < size
    ensures k < 0 <==> size > 0x4000_0000
  {
    for i: int := 0 to 31
      invariant forall j: nat :: j < i ==> Pow2(j) < size
    {
      Pow2Fits(i);
      var treeSize: int32 := Pow2(i);
      if size <= treeSize {
        return i;
      }
    }
    Pow2Fits(30);
    return -1;
  }

  predicate InRange(r: int, root: int, span: int, size: int)
  {
    root < r < root + span && r < size
  }

  /** `after` is `before` with the ranks above `root` in a block of `span` set to their parents. */
  ghost predicate Filled(before: seq<int>, after: seq<int>, root: nat, span: nat)
  {
    && |after| == |before|
    && forall r :: 0 <= r < |after| ==>
         after[r] == if InRange(r, root, span, |after|) then ClearLowestBit(r) else before[r]
  }

  ghost predicate WrittenOnce(writes: multiset<int>, root: int, span: int, size: int)
  {
    forall r :: writes[r] == if InRange(r, root, span, size) then 1 else 0
  }

  lemma TwoHalvesFilled(before: seq<int>, first: seq<int>, all: seq<int>, root: nat, child: nat, span: nat)
    requires child == root + span < |before| && span > 0 && ClearLowestBit(child) == root
    requires Filled(before, first, root, span) && Filled(first[child := root], all, child, span)
    ensures Filled(before, all, root, span + span)
  {
  }

  lemma TwoHalvesWritten(writes: multiset<int>, more: multiset<int>, root: nat, child: nat, span: nat, size: nat)
    requires child == root + span < size && span > 0
    requires WrittenOnce(writes, root, span, size) && WrittenOnce(more, child, span, size)
    ensures WrittenOnce(writes + multiset{child} + more, root, span + span, size)
  {
  }

  /** Sets every rank above `root` in its block of 2^k exactly once, to the rank with its lowest
      set bit cleared; `writes` counts the assignments made.  The C arithmetic stays in range. */
  method BinomialGenerate(node: array<int>, root: nat, k: nat) returns (ghost writes: multiset<int>)
    requires root < node.Length <= 0x4000_0000 && k <= 30 && LowBitsClear(root, k)
    modifies node
    ensures Filled(old(node[..]), node[..], root, Pow2(k))
    ensures WrittenOnce(writes, root, Pow2(k), node.Length)
    decreases k
  {
    writes := multiset{};
    for j := 0 to k
      invariant Filled(old(node[..]), node[..], root, Pow2(j))
      invariant WrittenOnce(writes, root, Pow2(j), node.Length)
    {
      Pow2Fits(j);
      var child: int32 := root + Pow2(j);
      if child < node.Length {
        FewerLowBitsClear(root, j + 1, k);
        SetBitIsLowest(root, j);
        ghost var first := node[..];
        node[child] := root;
        assert node[..] == first[child := root];
        ghost var more := BinomialGenerate(node, child, j);
        TwoHalvesFilled(old(node[..]), first, node[..], root, child, Pow2(j));
        TwoHalvesWritten(writes, more, root, child, Pow2(j), node.Length);
        writes := writes + multiset{child} + more;
      }
    }
  }

  function BinomialParents(size: nat): seq<int>
  {
    seq(size, r => if r <= 0 then -1 else ClearLowestBit(r))
  }

  /** The result is a tree in which a rank's level is the number of bits set in it. */
  lemma {:induction false} BinomialLevels(size: nat, r: nat, k: nat)
    requires r < size <= Pow2(k)
    ensures IsTree(BinomialParents(size))
    ensures Level(BinomialParents(size), r) == BitCount(r) <= k
    decreases r
  {
    ParentsBelowIsTree(BinomialParents(size));
    BitCountBound(r, k);
    if r > 0 {
      ClearingLosesOneBit(r);
      BinomialLevels(size, ClearLowestBit(r), k);
    }
  }

  method BinomialInit(path: Option<string>, node: array<int>) returns (ok: bool)
    requires node.Length > 0 && node[..] == Flat(node.Length)
    modifies node
    ensures ok <==> (path.Some? ==> path.value == "") && node.Length <= 0x4000_0000
    ensures ok ==> node[..] == BinomialParents(node.Length)
    ensures IsTree(node[..])
  {
    FlatIsTree(node.Length);
    if path.Some? && path.value != "" {
      return false;
    }
    var k := BinomialSmallestK(node.Length);
    if k < 0 {
      return false;
    }
    ZeroIsClear(k);
    ghost var writes := BinomialGenerate(node, 0, k);
    assert node[..] == BinomialParents(node.Length);
    ParentsBelowIsTree(node[..]);
    return true;
  }

  lemma {:induction false} ZeroIsClear(k: nat)
    ensures LowBitsClear(0, k)
  {
    if k > 0 {
      ZeroIsClear(k - 1);
    }
  }

  /* ---- k-ary ---- */

  const KARY_NONE := 0xffff_ffff

  /** The parent formula in 32-bit unsigned arithmetic. */
  function KaryParentOf(k: int, i: nat): int
    requires k < 0x8000_0000
  {
    if i == 0 || k <= 0 then KARY_NONE
    else if k == 1 then i - 1
    else ((k + (i + 1) - 2) % 0x1_0000_0000) / k - 1
  }

  lemma KaryParentIsQuotient(k: int, r: nat)
    requires 0 < k < 0x8000_0000 && 0 < r < 0x8000_0000
    ensures KaryParentOf(k, r) == (r - 1) / k
  {
    var q := (r - 1) / k;
    assert k + (r + 1) - 2 == k * (q + 1) + (r - 1) % k;
    QuotientIs(k + (r + 1) - 2, k, q + 1, (r - 1) % k);
  }

  /** Rank r > 0 hangs under the one rank a with k*a+1 <= r <= k*a+k. */
  lemma KaryParentIsBlock(k: int, r: nat, a: nat)
    requires 0 < k < 0x8000_0000 && 0 < r < 0x8000_0000
    ensures 0 <= KaryParentOf(k, r) < r
    ensures KaryParentOf(k, r) == a <==> k * a + 1 <= r <= k * a + k
  {
    KaryParentIsQuotient(k, r);
    QuotientBounds(k, r - 1, a);
  }

  lemma QuotientBounds(k: int, x: nat, a: int)
    requires k > 0
    ensures 0 <= x / k <= x
    ensures x / k == a <==> k * a <= x < k * a + k
  {
    var q := x / k;
    assert x == k * q + x % k;
    BlockOrder(k, 0, q);
    if k * a <= x < k * a + k {
      QuotientIs(x, k, a, x - k * a);
    }
  }

  lemma BlockOrder(k: int, a: int, b: int)
    requires k > 0
    ensures a <= b ==> k * a <= k * b
    ensures b >= 0 ==> b <= k * b
  {
  }

  lemma QuotientIs(x: int, k: int, q: int, rem: int)
    requires k > 0 && 0 <= rem < k && x == k * q + rem
    ensures x / k == q
  {
    assert x == k * (x / k) + x % k;
    if x / k < q {
      BlockOrder(k, x / k + 1, q);
    } else if x / k > q {
      BlockOrder(k, q + 1, x / k);
    }
  }

  method KaryInit(k: int, node: array<int>)
    requires 0 < node.Length < 0x8000_0000 && k < 0x8000_0000
    requires node[..] == Flat(node.Length)
    modifies node
    ensures IsTree(node[..])
    ensures k <= 0 ==> node[..] == Flat(node.Length)
    ensures k > 0 ==> forall r :: 1 <= r < node.Length ==> k * node[r] + 1 <= r <= k * node[r] + k
  {
    FlatIsTree(node.Length);
    if k > 0 {
      for i := 0 to node.Length
        invariant i > 0 ==> node[0] == -1
        invariant forall r :: 1 <= r < i ==> 0 <= node[r] < r && k * node[r] + 1 <= r <= k * node[r] + k
      {
        node[i] := KaryParentOf(k, i);
        if i > 0 {
          KaryParentIsBlock(k, i, node[i]);
        }
        if node[i] == KARY_NONE {
          node[i] := -1;
        }
      }
      ParentsBelowIsTree(node[..]);
    }
  }
}
