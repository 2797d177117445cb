/** The queries made of the overlay tree. */
module Topology {
  import opened Tree

  /* ---- queries ---- */

  method GetLevel(parent: seq<int>, self: int) returns (level: nat)
    requires IsTree(parent) && IsRank(parent, self)
    ensures level == Level(parent, self)
  {
    level := 0;
    var rank := self;
    while rank != 0
      invariant IsRank(parent, rank)
      invariant level + Level(parent, rank) == Level(parent, self)
      decreases Level(parent, rank)
    {
      rank := parent[rank];
      level := level + 1;
    }
  }

  method GetMaxLevel(parent: seq<int>) returns (maxLevel: nat)
    requires IsTree(parent)
    ensures forall r :: 0 <= r < |parent| ==> Level(parent, r) <= maxLevel
    ensures exists r :: 0 <= r < |parent| && Level(parent, r) == maxLevel
  {
    maxLevel := 0;
    assert Level(parent, 0) == 0;
    for i := 0 to |parent|
      invariant forall r :: 0 <= r < i ==> Level(parent, r) <= maxLevel
      invariant exists r :: 0 <= r < |parent| && Level(parent, r) == maxLevel
    {
      var level := GetLevel(parent, i);
      if maxLevel < level {
        maxLevel := level;
      }
    }
  }

  /** The source's descendant test, which also answers for ranks out of range. */
  predicate IsDescendantOf(parent: seq<int>, rank: int, ancestor: int)
    requires IsTree(parent)
    decreases if IsRank(parent, rank) then SomeLevels(parent)[rank] + 1 else 0
  {
    if rank < 0 || ancestor < 0 || rank >= |parent| || ancestor >= |parent| || parent[rank] == -1 then
      false
    else if parent[rank] == ancestor then
      true
    else
      IsDescendantOf(parent, parent[rank], ancestor)
  }

  lemma {:induction false} IsDescendantOfMeansBelow(parent: seq<int>, rank: int, ancestor: int)
    requires IsTree(parent)
    ensures IsDescendantOf(parent, rank, ancestor)
       <==> IsRank(parent, rank) && IsRank(parent, ancestor) && Below(parent, rank, ancestor)
    decreases if IsRank(parent, rank) then SomeLevels(parent)[rank] + 1 else 0
  {
    if IsRank(parent, rank) && rank != 0 {
      if IsRank(parent, ancestor) {
        IsDescendantOfMeansBelow(parent, parent[rank], ancestor);
      }
    }
  }

  datatype Counted = Count(n: nat) | EINVAL | EOVERFLOW

  /** A buffer that held `before` holds `xs` at its start. */
  ghost predicate Holds(buffer: seq<int>, xs: seq<int>, before: seq<int>)
  {
    && |xs| <= |buffer| == |before|
    && (forall k :: 0 <= k < |xs| ==> buffer[k] == xs[k])
    && (forall k :: |xs| <= k < |buffer| ==> buffer[k] == before[k])
  }

  lemma HoldsOneMore(parent: seq<int>, rank: int, i: nat, buffer: seq<int>, before: seq<int>)
    requires i < |parent| && parent[i] == rank
    requires Holds(buffer, ChildrenUpTo(parent, rank, i), before) && |ChildrenUpTo(parent, rank, i)| < |buffer|
    ensures Holds(buffer[|ChildrenUpTo(parent, rank, i)| := i], ChildrenUpTo(parent, rank, i + 1), before)
  {
  }

  /** Counts the children of a rank, and lists them in the first `length` places of the buffer if there is
      one.  A missing buffer has no places. */
  method ChildRanksAt(parent: seq<int>, rank: int, buffer: array?<int>, length: nat) returns (r: Counted)
    requires buffer != null ==> length <= buffer.Length
    modifies if buffer == null then {} else {buffer}
    ensures r.EINVAL? <==> !IsRank(parent, rank) || (length > 0 && buffer == null)
    ensures r.EOVERFLOW? <==> IsRank(parent, rank) && buffer != null && length < |Children(parent, rank)|
    ensures r.Count? ==> r.n == |Children(parent, rank)|
    ensures r.Count? && buffer != null ==> Holds(buffer[..], Children(parent, rank), old(buffer[..]))
    ensures buffer != null ==> buffer[length..] == old(buffer[length..])
  {
    if !IsRank(parent, rank) || (length > 0 && buffer == null) {
      return EINVAL;
    }
    ghost var before := if buffer == null then [] else buffer[..];
    var count := 0;
    for i := 0 to |parent|
      invariant count == |ChildrenUpTo(parent, rank, i)|
      invariant buffer != null ==> count <= length && Holds(buffer[..], ChildrenUpTo(parent, rank, i), before)
    {
      if parent[i] == rank {
        if buffer != null {
          if count >= length {
            PrefixIsShorter(parent, rank, i + 1);
            return EOVERFLOW;
          }
          ghost var was := buffer[..];
          HoldsOneMore(parent, rank, i, was, before);
          buffer[count] := i;
          assert buffer[..] == was[count := i];
        }
        count := count + 1;
      }
    }
    return Count(count);
  }

  lemma {:induction false} PrefixIsShorter(parent: seq<int>, rank: int, n: nat)
    requires n <= |parent|
    ensures |ChildrenUpTo(parent, rank, n)| <= |Children(parent, rank)|
    decreases |parent| - n
  {
    if n < |parent| {
      PrefixIsShorter(parent, rank, n + 1);
    }
  }

  function ChildrenUpTo(parent: seq<int>, rank: int, n: nat): (children: seq<int>)
    requires n <= |parent|
    ensures forall c :: c in children <==> 0 <= c < n && parent[c] == rank
    ensures forall i, j :: 0 <= i < j < |children| ==> children[i] < children[j]
  {
    if n == 0 then []
    else if parent[n - 1] == rank then
      var before := ChildrenUpTo(parent, rank, n - 1);
      assert forall i :: 0 <= i < |before| ==> before[i] in before;
      before + [n - 1]
    else ChildrenUpTo(parent, rank, n - 1)
  }

  /** The children of `rank`, in increasing order. */
  function Children(parent: seq<int>, rank: int): (children: seq<int>)
    ensures forall c :: c in children <==> 0 <= c < |parent| && parent[c] == rank
    ensures forall i :: 0 <= i < |children| ==> 0 <= children[i] < |parent| && parent[children[i]] == rank
    ensures forall i, j :: 0 <= i < j < |children| ==> children[i] < children[j]
  {
    var children := ChildrenUpTo(parent, rank, |parent|);
    assert forall i :: 0 <= i < |children| ==> children[i] in children;
    children
  }

  method DescendantCountAt(parent: seq<int>, rank: int) returns (count: nat)
    requires IsTree(parent)
    ensures !IsRank(parent, rank) ==> count == 0
    ensures IsRank(parent, rank) ==> count == |Descendants(parent, rank)|
  {
    count := 0;
    ghost var seen: set<int> := {};
    for i := 0 to |parent|
      invariant forall r :: r in seen <==> 0 <= r < i && IsDescendantOf(parent, r, rank)
      invariant count == |seen|
    {
      if IsDescendantOf(parent, i, rank) {
        count := count + 1;
        seen := seen + {i};
      }
    }
    forall r | 0 <= r < |parent|
      ensures IsDescendantOf(parent, r, rank) <==> IsRank(parent, rank) && Below(parent, r, rank)
    {
      IsDescendantOfMeansBelow(parent, r, rank);
    }
    if IsRank(parent, rank) {
      assert seen == Descendants(parent, rank);
    } else {
      assert forall r :: r !in seen;
    }
  }

  /** The child of `self` through which `rank` is reached, or -1. */
  function ChildRoute(parent: seq<int>, self: int, rank: int): int
    requires IsTree(parent)
    decreases if IsRank(parent, rank) then SomeLevels(parent)[rank] else 0
  {
    if rank <= 0 || rank >= |parent| then -1
    else if parent[rank] == self then rank
    else ChildRoute(parent, self, parent[rank])
  }

  /** The route exists exactly for strict descendants, and is then the one child whose
      subtree holds the destination. */
  lemma {:induction false} ChildRouteIsTheOnlyWayDown(parent: seq<int>, self: int, rank: int)
    requires IsTree(parent) && IsRank(parent, self)
    ensures ChildRoute(parent, self, rank) == -1
         || (IsRank(parent, rank) && ChildRoute(parent, self, rank) in Children(parent, self)
             && Within(parent, rank, ChildRoute(parent, self, rank)))
    ensures ChildRoute(parent, self, rank) != -1 <==> IsRank(parent, rank) && Below(parent, rank, self)
    ensures IsRank(parent, rank) ==>
              forall c :: c in Children(parent, self) && Within(parent, rank, c) ==> c == ChildRoute(parent, self, rank)
    decreases if IsRank(parent, rank) then SomeLevels(parent)[rank] else 0
  {
    if 0 < rank < |parent| {
      if parent[rank] != self {
        ChildRouteIsTheOnlyWayDown(parent, self, parent[rank]);
        forall c | c in Children(parent, self) && Within(parent, rank, c)
          ensures c == ChildRoute(parent, self, rank)
        {
          assert c != rank;
          assert Within(parent, parent[rank], c);
        }
      } else {
        forall c | c in Children(parent, self) && Within(parent, rank, c)
          ensures c == rank
        {
          SiblingSubtreesAreDisjoint(parent, rank, c, rank);
        }
      }
    }
  }

  /* ---- the subtree document ---- */

  datatype SubtreeDoc = SubtreeDoc(rank: int, size: int, children: seq<SubtreeDoc>)

  lemma ChildrenHaveFewerDescendants(parent: seq<int>, rank: int, c: int)
    requires IsTree(parent) && IsRank(parent, rank) && c in Children(parent, rank)
    ensures Subtree(parent, c) <= Descendants(parent, rank)
    ensures c !in Descendants(parent, c)
    ensures Descendants(parent, c) < Descendants(parent, rank)
  {
    forall r | r in Subtree(parent, c)
      ensures r in Descendants(parent, rank)
    {
      if r != c {
        BelowTransitive(parent, r, c, rank);
      }
    }
    if Below(parent, c, c) {
      BelowIsDeeper(parent, c, c);
    }
    assert c in Descendants(parent, rank);
  }

  function SubtreeAt(parent: seq<int>, rank: int): SubtreeDoc
    requires IsTree(parent) && IsRank(parent, rank)
    decreases Descendants(parent, rank)
  {
    SubtreeDoc(rank, |Descendants(parent, rank)| + 1, SubtreesUpTo(parent, rank, |Children(parent, rank)|))
  }

  function SubtreesUpTo(parent: seq<int>, rank: int, n: nat): (docs: seq<SubtreeDoc>)
    requires IsTree(parent) && IsRank(parent, rank) && n <= |Children(parent, rank)|
    ensures |docs| == n
    decreases Descendants(parent, rank), n
  {
    if n == 0 then [] else
      var c := Children(parent, rank)[n - 1];
      ChildrenHaveFewerDescendants(parent, rank, c);
      SubtreesUpTo(parent, rank, n - 1) + [SubtreeAt(parent, c)]
  }

  /** All ranks mentioned in a document, with repetition. */
  function RanksOf(doc: SubtreeDoc): multiset<int>
    decreases doc
  {
    multiset{doc.rank} + RanksOfAll(doc, |doc.children|)
  }

  function RanksOfAll(doc: SubtreeDoc, n: nat): multiset<int>
    requires n <= |doc.children|
    decreases doc, n
  {
    if n == 0 then multiset{} else RanksOfAll(doc, n - 1) + RanksOf(doc.children[n - 1])
  }

  /** The ranks in the subtrees of `kids`. */
  function ThroughThese(parent: seq<int>, kids: seq<int>): set<int>
    requires IsTree(parent)
  {
    if kids == [] then {} else ThroughThese(parent, kids[..|kids| - 1]) + Subtree(parent, kids[|kids| - 1])
  }

  function SumOfSubtrees(parent: seq<int>, kids: seq<int>): nat
    requires IsTree(parent)
  {
    if kids == [] then 0
    else SumOfSubtrees(parent, kids[..|kids| - 1]) + |Descendants(parent, kids[|kids| - 1])| + 1
  }

  /** `kids` are distinct children of one rank. */
  ghost predicate Siblings(parent: seq<int>, rank: int, kids: seq<int>)
  {
    && (forall i :: 0 <= i < |kids| ==> 0 <= kids[i] < |parent| && parent[kids[i]] == rank)
    && (forall i, j :: 0 <= i < j < |kids| ==> kids[i] != kids[j])
  }

  lemma {:induction false} ThroughWhich(parent: seq<int>, kids: seq<int>, r: int) returns (i: nat)
    requires IsTree(parent) && r in ThroughThese(parent, kids)
    ensures i < |kids| && r in Subtree(parent, kids[i])
  {
    if r in Subtree(parent, kids[|kids| - 1]) {
      i := |kids| - 1;
    } else {
      i := ThroughWhich(parent, kids[..|kids| - 1], r);
    }
  }

  lemma {:induction false} ThroughIncludes(parent: seq<int>, kids: seq<int>, i: nat)
    requires IsTree(parent) && i < |kids|
    ensures Subtree(parent, kids[i]) <= ThroughThese(parent, kids)
  {
    if i < |kids| - 1 {
      ThroughIncludes(parent, kids[..|kids| - 1], i);
    }
  }

  lemma LastIsDisjoint(parent: seq<int>, rank: int, kids: seq<int>)
    requires IsTree(parent) && Siblings(parent, rank, kids) && kids != []
    ensures ThroughThese(parent, kids[..|kids| - 1]) !! Subtree(parent, kids[|kids| - 1])
  {
    var before, last := kids[..|kids| - 1], kids[|kids| - 1];
    forall r | r in ThroughThese(parent, before)
      ensures r !in Subtree(parent, last)
    {
      var i := ThroughWhich(parent, before, r);
      if r in Subtree(parent, last) {
        SiblingSubtreesAreDisjoint(parent, r, before[i], last);
      }
    }
  }

  lemma ThroughAllChildren(parent: seq<int>, rank: int)
    requires IsTree(parent) && IsRank(parent, rank)
    ensures ThroughThese(parent, Children(parent, rank)) == Descendants(parent, rank)
  {
    var kids := Children(parent, rank);
    forall r | r in Descendants(parent, rank)
      ensures r in ThroughThese(parent, kids)
    {
      var c := ChildTowards(parent, r, rank);
      var i :| 0 <= i < |kids| && kids[i] == c;
      ThroughIncludes(parent, kids, i);
    }
    forall r | r in ThroughThese(parent, kids)
      ensures r in Descendants(parent, rank)
    {
      var i := ThroughWhich(parent, kids, r);
      ChildrenHaveFewerDescendants(parent, rank, kids[i]);
    }
  }

  lemma SubtreeSize(parent: seq<int>, c: int)
    requires IsTree(parent) && IsRank(parent, c)
    ensures Subtree(parent, c) == Descendants(parent, c) + {c} && c !in Descendants(parent, c)
    ensures |Subtree(parent, c)| == |Descendants(parent, c)| + 1
  {
    if Below(parent, c, c) {
      BelowIsDeeper(parent, c, c);
    }
    assert Subtree(parent, c) == Descendants(parent, c) + {c};
  }

  lemma DisjointUnion(a: set<int>, b: set<int>)
    requires a !! b
    ensures |a + b| == |a| + |b|
    ensures multiset(a + b) == multiset(a) + multiset(b)
  {
  }

  lemma {:induction false} SumCounts(parent: seq<int>, rank: int, kids: seq<int>)
    requires IsTree(parent) && Siblings(parent, rank, kids)
    ensures |ThroughThese(parent, kids)| == SumOfSubtrees(parent, kids)
  {
    if kids != [] {
      var before, last := kids[..|kids| - 1], kids[|kids| - 1];
      SumCounts(parent, rank, before);
      LastIsDisjoint(parent, rank, kids);
      SubtreeSize(parent, last);
      DisjointUnion(ThroughThese(parent, before), Subtree(parent, last));
    }
  }

  /** A rank's descendant count is the sum, over its children, of their counts plus one. */
  lemma DescendantCountIsSumOverChildren(parent: seq<int>, rank: int)
    requires IsTree(parent) && IsRank(parent, rank)
    ensures |Descendants(parent, rank)| == SumOfSubtrees(parent, Children(parent, rank))
  {
    SumCounts(parent, rank, Children(parent, rank));
    ThroughAllChildren(parent, rank);
  }

  /** One more child: its subtree is disjoint from those before it. */
  lemma OneMoreChild(parent: seq<int>, rank: int, n: nat)
    requires IsTree(parent) && IsRank(parent, rank) && 0 < n <= |Children(parent, rank)|
    ensures var kids := Children(parent, rank);
      multiset(ThroughThese(parent, kids[..n]))
        == multiset(ThroughThese(parent, kids[..n - 1])) + multiset(Subtree(parent, kids[n - 1]))
  {
    var kids := Children(parent, rank);
    assert kids[..n][..n - 1] == kids[..n - 1];
    LastIsDisjoint(parent, rank, kids[..n]);
    DisjointUnion(ThroughThese(parent, kids[..n - 1]), Subtree(parent, kids[n - 1]));
  }

  lemma OneMoreDoc(parent: seq<int>, rank: int, n: nat)
    requires IsTree(parent) && IsRank(parent, rank) && 0 < n <= |Children(parent, rank)|
    ensures var doc := SubtreeAt(parent, rank);
      RanksOfAll(doc, n) == RanksOfAll(doc, n - 1) + RanksOf(SubtreeAt(parent, Children(parent, rank)[n - 1]))
  {
    PrefixEntry(parent, rank, |Children(parent, rank)|, n - 1);
  }

  lemma {:induction false} PrefixListsOnce(parent: seq<int>, rank: int, n: nat)
    requires IsTree(parent) && IsRank(parent, rank) && n <= |Children(parent, rank)|
    ensures RanksOfAll(SubtreeAt(parent, rank), n) == multiset(ThroughThese(parent, Children(parent, rank)[..n]))
    decreases Descendants(parent, rank), n
  {
    if n > 0 {
      var kids := Children(parent, rank);
      PrefixListsOnce(parent, rank, n - 1);
      OneMoreChild(parent, rank, n);
      OneMoreDoc(parent, rank, n);
      ChildrenHaveFewerDescendants(parent, rank, kids[n - 1]);
      SubtreeListsEachRankOnce(parent, kids[n - 1]);
    }
  }

  lemma {:induction false} PrefixEntry(parent: seq<int>, rank: int, n: nat, i: nat)
    requires IsTree(parent) && IsRank(parent, rank) && i < n <= |Children(parent, rank)|
    ensures SubtreesUpTo(parent, rank, n)[i] == SubtreeAt(parent, Children(parent, rank)[i])
  {
    if i < n - 1 {
      PrefixEntry(parent, rank, n - 1, i);
    }
  }

  /** The recursive document mentions each rank of the subtree exactly once, and no other. */
  lemma {:induction false} SubtreeListsEachRankOnce(parent: seq<int>, rank: int)
    requires IsTree(parent) && IsRank(parent, rank)
    ensures RanksOf(SubtreeAt(parent, rank)) == multiset(Subtree(parent, rank))
    ensures SubtreeAt(parent, rank).size == |Subtree(parent, rank)|
    decreases Descendants(parent, rank)
  {
    var kids := Children(parent, rank);
    PrefixListsOnce(parent, rank, |kids|);
    assert kids[..|kids|] == kids;
    ThroughAllChildren(parent, rank);
    SubtreeSize(parent, rank);
  }

  /** What the groups service collects by walking a document. */
  function AddSubtreeIds(ids: set<int>, doc: SubtreeDoc): set<int>
    decreases doc
  {
    AddChildIds(ids + {doc.rank}, doc, |doc.children|)
  }

  function AddChildIds(ids: set<int>, doc: SubtreeDoc, n: nat): set<int>
    requires n <= |doc.children|
    decreases doc, n
  {
    if n == 0 then ids else AddSubtreeIds(AddChildIds(ids, doc, n - 1), doc.children[n - 1])
  }

  lemma {:induction false} AddSubtreeIdsCollects(ids: set<int>, doc: SubtreeDoc)
    ensures forall r :: r in AddSubtreeIds(ids, doc) <==> r in ids || r in RanksOf(doc)
    decreases doc
  {
    AddChildIdsCollects(ids + {doc.rank}, doc, |doc.children|);
  }

  lemma {:induction false} AddChildIdsCollects(ids: set<int>, doc: SubtreeDoc, n: nat)
    requires n <= |doc.children|
    ensures forall r :: r in AddChildIds(ids, doc, n) <==> r in ids || r in RanksOfAll(doc, n)
    decreases doc, n
  {
    if n > 0 {
      AddChildIdsCollects(ids, doc, n - 1);
      AddSubtreeIdsCollects(AddChildIds(ids, doc, n - 1), doc.children[n - 1]);
    }
  }

  /** Walking the document of `rank` adds exactly the ranks of its subtree. */
  lemma AddSubtreeIdsIsSubtree(ids: set<int>, parent: seq<int>, rank: int)
    requires IsTree(parent) && IsRank(parent, rank)
    ensures AddSubtreeIds(ids, SubtreeAt(parent, rank)) == ids + Subtree(parent, rank)
  {
    SubtreeListsEachRankOnce(parent, rank);
    AddSubtreeIdsCollects(ids, SubtreeAt(parent, rank));
  }
}
