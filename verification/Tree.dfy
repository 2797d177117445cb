/** The overlay's shape: a parent array in which every rank's chain of parents
    ends at rank 0, and the theory of ancestors, levels and distances on it. */
module Tree {

  /** `level` certifies `parent`: rank 0 is the only root, and every other rank
      sits one level below its parent. */
  ghost predicate Levels(parent: seq<int>, level: seq<nat>)
  {
    && |parent| == |level| > 0
    && parent[0] == -1
    && level[0] == 0
    && forall r :: 1 <= r < |parent| ==> 0 <= parent[r] < |parent| && level[r] == level[parent[r]] + 1
  }

  ghost predicate IsTree(parent: seq<int>)
  {
    exists level :: Levels(parent, level)
  }

  ghost function SomeLevels(parent: seq<int>): (level: seq<nat>)
    requires IsTree(parent)
    ensures Levels(parent, level)
  {
    var level :| Levels(parent, level);
    level
  }

  predicate IsRank(parent: seq<int>, r: int)
  {
    0 <= r < |parent|
  }

  /** The number of parent steps from `r` to rank 0. */
  function Level(parent: seq<int>, r: int): nat
    requires IsTree(parent) && IsRank(parent, r)
    decreases SomeLevels(parent)[r]
  {
    if r == 0 then 0 else 1 + Level(parent, parent[r])
  }

  lemma {:induction false} LevelIsCertified(parent: seq<int>, r: int)
    requires IsTree(parent) && IsRank(parent, r)
    ensures Level(parent, r) == SomeLevels(parent)[r]
    decreases SomeLevels(parent)[r]
  {
    if r != 0 {
      LevelIsCertified(parent, parent[r]);
    }
  }

  /** `r` is a strict descendant of `a`. */
  predicate Below(parent: seq<int>, r: int, a: int)
    requires IsTree(parent) && IsRank(parent, r)
    decreases SomeLevels(parent)[r]
  {
    r != 0 && (parent[r] == a || Below(parent, parent[r], a))
  }

  /** `r` is in the subtree rooted at `a`. */
  predicate Within(parent: seq<int>, r: int, a: int)
    requires IsTree(parent) && IsRank(parent, r)
  {
    r == a || Below(parent, r, a)
  }

  function Subtree(parent: seq<int>, a: int): set<int>
    requires IsTree(parent)
  {
    set r | 0 <= r < |parent| && Within(parent, r, a)
  }

  function Descendants(parent: seq<int>, a: int): set<int>
    requires IsTree(parent)
  {
    set r | 0 <= r < |parent| && Below(parent, r, a)
  }

  lemma {:induction false} BelowIsDeeper(parent: seq<int>, r: int, a: int)
    requires IsTree(parent) && IsRank(parent, r)
    requires Below(parent, r, a)
    ensures IsRank(parent, a) && Level(parent, a) < Level(parent, r)
    decreases SomeLevels(parent)[r]
  {
    if parent[r] != a {
      BelowIsDeeper(parent, parent[r], a);
    }
  }

  lemma {:induction false} EveryRankIsUnderRoot(parent: seq<int>, r: int)
    requires IsTree(parent) && IsRank(parent, r)
    ensures Within(parent, r, 0)
    decreases SomeLevels(parent)[r]
  {
    if r != 0 {
      EveryRankIsUnderRoot(parent, parent[r]);
    }
  }

  lemma {:induction false} BelowTransitive(parent: seq<int>, r: int, b: int, a: int)
    requires IsTree(parent) && IsRank(parent, r) && IsRank(parent, b)
    requires Below(parent, r, b) && Within(parent, b, a)
    ensures Below(parent, r, a)
    decreases SomeLevels(parent)[r]
  {
    if parent[r] != b {
      BelowTransitive(parent, parent[r], b, a);
    }
  }

  /** Two ancestors of one rank are comparable. */
  lemma {:induction false} AncestorsAreAChain(parent: seq<int>, r: int, a: int, b: int)
    requires IsTree(parent) && IsRank(parent, r) && IsRank(parent, a) && IsRank(parent, b)
    requires Within(parent, r, a) && Within(parent, r, b)
    ensures Within(parent, a, b) || Within(parent, b, a)
    decreases SomeLevels(parent)[r]
  {
    if r != a && r != b {
      AncestorsAreAChain(parent, parent[r], a, b);
    }
  }

  lemma SiblingSubtreesAreDisjoint(parent: seq<int>, r: int, c: int, d: int)
    requires IsTree(parent) && IsRank(parent, r) && IsRank(parent, c) && IsRank(parent, d)
    requires parent[c] == parent[d] && Within(parent, r, c) && Within(parent, r, d)
    ensures c == d
  {
    AncestorsAreAChain(parent, r, c, d);
    if c != d {
      if Within(parent, c, d) {
        ParentIsNotBelow(parent, d, c);
      } else {
        ParentIsNotBelow(parent, c, d);
      }
    }
  }

  /** A rank that shares `c`'s parent cannot be below `c`. */
  lemma ParentIsNotBelow(parent: seq<int>, c: int, d: int)
    requires IsTree(parent) && IsRank(parent, c) && IsRank(parent, d)
    requires parent[c] == parent[d]
    ensures !Below(parent, d, c)
  {
    if Below(parent, d, c) {
      BelowIsDeeper(parent, d, c);
    }
  }

  lemma NotOwnParent(parent: seq<int>, r: int)
    requires IsTree(parent) && IsRank(parent, r)
    ensures parent[r] != r
  {
    if r > 0 {
      assert Level(parent, r) == 1 + Level(parent, parent[r]);
    }
  }

  lemma LinkIsOneWay(parent: seq<int>, c: int)
    requires IsTree(parent) && IsRank(parent, c) && c != 0
    ensures parent[parent[c]] != c
  {
    var p := parent[c];
    if p != 0 {
      assert Level(parent, p) == 1 + Level(parent, parent[p]);
      assert Level(parent, c) == 1 + Level(parent, p);
    }
  }

  /** Every rank of a subtree other than its root enters it through exactly one child. */
  lemma {:induction false} ChildTowards(parent: seq<int>, r: int, a: int) returns (c: int)
    requires IsTree(parent) && IsRank(parent, r) && Below(parent, r, a)
    ensures IsRank(parent, c) && c != 0 && parent[c] == a && Within(parent, r, c)
    decreases SomeLevels(parent)[r]
  {
    if parent[r] == a {
      c := r;
    } else {
      c := ChildTowards(parent, parent[r], a);
      if c != parent[r] {
        assert Below(parent, parent[r], c);
      }
    }
  }
}
