/** One group over the whole tree: every broker runs the service of module Groups, and each link
    upstream is a queue of update lists. */
module GroupTree {
  import opened Tree
  import opened Groups

  /** One broker's part of the group.  `up` is what it has sent and its parent not yet received;
      `joined` says that its last accepted request was a join. */
  datatype Node = Node(members: set<int>, batch: seq<Update>, up: seq<seq<Update>>, joined: bool)

  datatype Step = Join(r: int) | Leave(r: int) | Flush(r: int) | Deliver(c: int)

  function JoinNode(n: Node, r: int): Node
  {
    if n.joined then n else n.(batch := n.batch + [Update({r}, true)], joined := true)
  }

  function LeaveNode(n: Node, r: int): Node
  {
    if n.joined then n.(batch := n.batch + [Update({r}, false)], joined := false) else n
  }

  function FlushNode(n: Node, r: int): Node
  {
    n.(members := ApplyAll(n.members, Reduced(n.batch)),
       batch := [],
       up := if r > 0 then n.up + [Reduced(n.batch)] else n.up)
  }

  function Next(parent: seq<int>, net: seq<Node>, s: Step): seq<Node>
    requires IsTree(parent) && |net| == |parent|
  {
    match s
    case Join(r) => if IsRank(parent, r) then net[r := JoinNode(net[r], r)] else net
    case Leave(r) => if IsRank(parent, r) then net[r := LeaveNode(net[r], r)] else net
    case Flush(r) => if IsRank(parent, r) then net[r := FlushNode(net[r], r)] else net
    case Deliver(c) =>
      if IsRank(parent, c) && c != 0 && net[c].up != [] then
        var p := parent[c];
        net[p := net[p].(batch := net[p].batch + net[c].up[0])][c := net[c].(up := net[c].up[1..])]
      else net
  }

  function Start(size: nat): seq<Node>
  {
    seq(size, _ => Node({}, [], [], false))
  }

  function Run(parent: seq<int>, steps: seq<Step>): (net: seq<Node>)
    requires IsTree(parent)
    ensures |net| == |parent|
    decreases |steps|
  {
    if steps == [] then Start(|parent|) else Next(parent, Run(parent, steps[..|steps| - 1]), steps[|steps| - 1])
  }

  /** The update lists on a link, joined into one. */
  function Joined(lists: seq<seq<Update>>): seq<Update>
  {
    if lists == [] then [] else lists[0] + Joined(lists[1..])
  }

  lemma {:induction false} JoinedAppend(lists: seq<seq<Update>>, last: seq<Update>)
    ensures Joined(lists + [last]) == Joined(lists) + last
  {
    if lists == [] {
      assert [last][1..] == [];
    } else {
      assert (lists + [last])[1..] == lists[1..] + [last];
      JoinedAppend(lists[1..], last);
    }
  }

  /* ---- the refinement invariant ---- */

  /** The updates name only ranks of `a`'s subtree. */
  ghost predicate StaysIn(parent: seq<int>, us: seq<Update>, a: int)
    requires IsTree(parent)
  {
    forall i, x :: 0 <= i < |us| && us[i].Update? && x in us[i].ranks ==> IsRank(parent, x) && Within(parent, x, a)
  }

  ghost predicate Scoped(parent: seq<int>, net: seq<Node>, r: int)
    requires IsTree(parent) && |net| == |parent| && IsRank(parent, r)
  {
    && (forall x :: x in net[r].members ==> IsRank(parent, x) && Within(parent, x, r))
    && StaysIn(parent, net[r].batch, r)
    && (forall k :: 0 <= k < |net[r].up| ==> StaysIn(parent, net[r].up[k], r))
  }

  /** Once its queue is applied, a broker counts itself in exactly if its last request was a join. */
  ghost predicate KnowsItself(net: seq<Node>, r: int)
    requires 0 <= r < |net|
  {
    Effect(net[r].batch, r, r in net[r].members) == net[r].joined
  }

  /** Applying the parent's queue and then what is in flight from `c` to the parent's members gives,
      on `c`'s subtree, exactly `c`'s members. */
  ghost predicate Refines(parent: seq<int>, net: seq<Node>, c: int, x: int)
    requires IsTree(parent) && |net| == |parent| && IsRank(parent, c) && c != 0
  {
    Effect(net[parent[c]].batch + Joined(net[c].up), x, x in net[parent[c]].members) == (x in net[c].members)
  }

  ghost predicate Inv(parent: seq<int>, net: seq<Node>)
    requires IsTree(parent) && |net| == |parent|
  {
    && (forall r :: 0 <= r < |parent| ==> Scoped(parent, net, r) && KnowsItself(net, r))
    && (forall c, x :: 0 < c < |parent| && 0 <= x < |parent| && Within(parent, x, c) ==> Refines(parent, net, c, x))
  }

  /** Updates to ranks outside a child's subtree do not matter to it. */
  lemma ForeignUpdate(base: seq<Update>, more: seq<Update>, tail: seq<Update>, x: int, was: bool)
    requires !Touches(more, x)
    ensures Effect((base + more) + tail, x, was) == Effect(base + tail, x, was)
  {
    EffectAppend(base + more, tail, x, was);
    EffectAppend(base, more, x, was);
    EffectAppend(base, tail, x, was);
    UntouchedKeeps(more, x, Effect(base, x, was));
  }

  lemma AnInitialNet(parent: seq<int>)
    requires IsTree(parent)
    ensures Inv(parent, Start(|parent|))
  {
    var net := Start(|parent|);
    forall c, x | 0 < c < |parent| && 0 <= x < |parent| && Within(parent, x, c)
      ensures Refines(parent, net, c, x)
    {
      assert net[parent[c]].batch + Joined(net[c].up) == [];
    }
  }

  /** A broker never lies in the subtree of one of its children. */
  lemma NotWithinChild(parent: seq<int>, c: int)
    requires IsTree(parent) && IsRank(parent, c) && c != 0
    ensures !Within(parent, parent[c], c)
  {
    if Below(parent, parent[c], c) {
      BelowIsDeeper(parent, parent[c], c);
    }
  }

  lemma OwnRequest(parent: seq<int>, net: seq<Node>, r: int, join: bool)
    requires IsTree(parent) && |net| == |parent| && Inv(parent, net) && IsRank(parent, r)
    ensures Inv(parent, net[r := net[r].(batch := net[r].batch + [Update({r}, join)], joined := join)])
  {
    var u := [Update({r}, join)];
    var net1 := net[r := net[r].(batch := net[r].batch + u, joined := join)];
    EffectAppend(net[r].batch, u, r, r in net[r].members);
    assert Scoped(parent, net, r);
    assert Scoped(parent, net1, r) && KnowsItself(net1, r);
    OthersKeep(parent, net, net1, {r});
    forall c, x | 0 < c < |parent| && 0 <= x < |parent| && Within(parent, x, c)
      ensures Refines(parent, net1, c, x)
    {
      assert Refines(parent, net, c, x);
      if parent[c] == r {
        NotWithinChild(parent, c);
        assert !Touches(u, x);
        ForeignUpdate(net[r].batch, u, Joined(net[c].up), x, x in net[r].members);
      }
    }
  }

  /** Brokers whose part did not change keep their local invariants. */
  lemma OthersKeep(parent: seq<int>, net: seq<Node>, net1: seq<Node>, changed: set<int>)
    requires IsTree(parent) && |net| == |net1| == |parent| && Inv(parent, net)
    requires forall q :: 0 <= q < |parent| && q !in changed ==> net1[q] == net[q]
    ensures forall q :: 0 <= q < |parent| && q !in changed ==> Scoped(parent, net1, q) && KnowsItself(net1, q)
  {
    forall q | 0 <= q < |parent| && q !in changed
      ensures Scoped(parent, net1, q) && KnowsItself(net1, q)
    {
      assert Scoped(parent, net, q) && KnowsItself(net, q);
    }
  }

  lemma {:induction false} AllRanksAreNamed(us: seq<Update>, x: int)
    requires x in AllRanks(us)
    ensures exists i :: 0 <= i < |us| && us[i].Update? && x in us[i].ranks
  {
    var n := |us| - 1;
    if us[n].Update? && x in us[n].ranks {
    } else {
      AllRanksAreNamed(us[..n], x);
    }
  }

  lemma ReducedStaysIn(parent: seq<int>, us: seq<Update>, a: int)
    requires IsTree(parent) && StaysIn(parent, us, a)
    ensures StaysIn(parent, Reduced(us), a)
  {
    if Mergeable(us) {
      forall x | x in AllRanks(us)
        ensures IsRank(parent, x) && Within(parent, x, a)
      {
        AllRanksAreNamed(us, x);
      }
    }
  }

  lemma {:induction false} ApplyAllStaysIn(parent: seq<int>, members: set<int>, us: seq<Update>, a: int)
    requires IsTree(parent) && StaysIn(parent, us, a)
    requires forall x :: x in members ==> IsRank(parent, x) && Within(parent, x, a)
    ensures forall x :: x in ApplyAll(members, us) ==> IsRank(parent, x) && Within(parent, x, a)
  {
    if us != [] {
      ApplyAllStaysIn(parent, members, us[..|us| - 1], a);
    }
  }

  /** Membership after a flush is the effect of the queue, reduced or not. */
  lemma FlushedMember(n: Node, r: int, x: int)
    ensures x in FlushNode(n, r).members <==> Effect(n.batch, x, x in n.members)
  {
    ApplyAllIsEffect(n.members, Reduced(n.batch), x);
    ReducedHasSameEffect(n.batch, x, x in n.members);
  }

  lemma FlushStep(parent: seq<int>, net: seq<Node>, r: int)
    requires IsTree(parent) && |net| == |parent| && Inv(parent, net) && IsRank(parent, r)
    ensures Inv(parent, net[r := FlushNode(net[r], r)])
  {
    var net1 := net[r := FlushNode(net[r], r)];
    FlushedMember(net[r], r, r);
    assert Scoped(parent, net, r) && KnowsItself(net, r);
    ReducedStaysIn(parent, net[r].batch, r);
    ApplyAllStaysIn(parent, net[r].members, Reduced(net[r].batch), r);
    assert Scoped(parent, net1, r) && KnowsItself(net1, r);
    OthersKeep(parent, net, net1, {r});
    forall c, x | 0 < c < |parent| && 0 <= x < |parent| && Within(parent, x, c)
      ensures Refines(parent, net1, c, x)
    {
      assert Refines(parent, net, c, x);
      FlushedMember(net[r], r, x);
      if c == r {
        FlushOfChild(parent, net, r, x);
      } else if parent[c] == r {
        EffectAppend(net[r].batch, Joined(net[c].up), x, x in net[r].members);
        assert [] + Joined(net[c].up) == Joined(net[c].up);
      }
    }
  }

  lemma FlushOfChild(parent: seq<int>, net: seq<Node>, r: int, x: int)
    requires IsTree(parent) && |net| == |parent| && IsRank(parent, r) && r != 0 && Refines(parent, net, r, x)
    ensures Refines(parent, net[r := FlushNode(net[r], r)], r, x)
  {
    var p, b := parent[r], Reduced(net[r].batch);
    NotWithinChild(parent, r);
    FlushedMember(net[r], r, x);
    JoinedAppend(net[r].up, b);
    var before := net[p].batch + Joined(net[r].up);
    assert net[p].batch + Joined(net[r].up + [b]) == before + b;
    EffectAppend(before, b, x, x in net[p].members);
    ReducedHasSameEffect(net[r].batch, x, x in net[r].members);
  }

  lemma DeliverStep(parent: seq<int>, net: seq<Node>, d: int)
    requires IsTree(parent) && |net| == |parent| && Inv(parent, net) && IsRank(parent, d) && d != 0
    requires net[d].up != []
    ensures Inv(parent, Next(parent, net, Deliver(d)))
  {
    var p, u := parent[d], net[d].up[0];
    var net1 := Next(parent, net, Deliver(d));
    NotWithinChild(parent, d);
    assert Scoped(parent, net, d) && KnowsItself(net, d) && Scoped(parent, net, p) && KnowsItself(net, p);
    assert StaysIn(parent, u, d);
    DeliverScoped(parent, net, d);
    assert !Touches(u, p);
    EffectAppend(net[p].batch, u, p, p in net[p].members);
    UntouchedKeeps(u, p, Effect(net[p].batch, p, p in net[p].members));
    assert KnowsItself(net1, p) && KnowsItself(net1, d);
    OthersKeep(parent, net, net1, {p, d});
    forall c, x | 0 < c < |parent| && 0 <= x < |parent| && Within(parent, x, c)
      ensures Refines(parent, net1, c, x)
    {
      assert Refines(parent, net, c, x);
      if c == d {
        assert (net[p].batch + u) + Joined(net[d].up[1..]) == net[p].batch + Joined(net[d].up);
      } else if parent[c] == p {
        if Touches(u, x) {
          SiblingSubtreesAreDisjoint(parent, x, c, d);
        }
        ForeignUpdate(net[p].batch, u, Joined(net[c].up), x, x in net[p].members);
      }
    }
  }

  lemma DeliverScoped(parent: seq<int>, net: seq<Node>, d: int)
    requires IsTree(parent) && |net| == |parent| && IsRank(parent, d) && d != 0 && net[d].up != []
    requires Scoped(parent, net, d) && Scoped(parent, net, parent[d])
    ensures Scoped(parent, Next(parent, net, Deliver(d)), d)
    ensures Scoped(parent, Next(parent, net, Deliver(d)), parent[d])
  {
    var p, u := parent[d], net[d].up[0];
    var b := net[p].batch + u;
    NotWithinChild(parent, d);
    forall i, x | 0 <= i < |b| && b[i].Update? && x in b[i].ranks
      ensures IsRank(parent, x) && Within(parent, x, p)
    {
      if i >= |net[p].batch| {
        assert u[i - |net[p].batch|] == b[i];
        assert StaysIn(parent, u, d);
        assert IsRank(parent, x) && Within(parent, x, d);
        if x != d {
          assert Below(parent, x, d) && Below(parent, d, p);
          BelowTransitive(parent, x, d, p);
        }
      }
    }
  }

  lemma {:induction false} InvHolds(parent: seq<int>, steps: seq<Step>)
    requires IsTree(parent)
    ensures Inv(parent, Run(parent, steps))
    decreases |steps|
  {
    if steps == [] {
      AnInitialNet(parent);
    } else {
      var net, s := Run(parent, steps[..|steps| - 1]), steps[|steps| - 1];
      InvHolds(parent, steps[..|steps| - 1]);
      InvStep(parent, net, s);
    }
  }

  lemma InvStep(parent: seq<int>, net: seq<Node>, s: Step)
    requires IsTree(parent) && |net| == |parent| && Inv(parent, net)
    ensures Inv(parent, Next(parent, net, s))
  {
    match s {
      case Join(r) =>
        if IsRank(parent, r) {
          if net[r].joined {
            assert Next(parent, net, s) == net;
          } else {
            OwnRequest(parent, net, r, true);
          }
        }
      case Leave(r) =>
        if IsRank(parent, r) {
          if net[r].joined {
            OwnRequest(parent, net, r, false);
          } else {
            assert Next(parent, net, s) == net;
          }
        }
      case Flush(r) =>
        if IsRank(parent, r) {
          FlushStep(parent, net, r);
        }
      case Deliver(c) =>
        if IsRank(parent, c) && c != 0 && net[c].up != [] {
          DeliverStep(parent, net, c);
        }
    }
  }

  /* ---- what rank 0 knows ---- */

  ghost predicate Quiet(net: seq<Node>)
  {
    forall r :: 0 <= r < |net| ==> net[r].batch == [] && net[r].up == []
  }

  lemma {:induction false} AncestorsAgree(parent: seq<int>, net: seq<Node>, x: int, a: int)
    requires IsTree(parent) && |net| == |parent| && Inv(parent, net) && Quiet(net)
    requires IsRank(parent, x) && IsRank(parent, a) && Within(parent, x, a)
    ensures x in net[a].members <==> net[x].joined
    decreases Level(parent, x) - Level(parent, a)
  {
    if x == a {
      assert KnowsItself(net, x);
    } else {
      BelowIsDeeper(parent, x, a);
      var c := ChildTowards(parent, x, a);
      if x != c {
        BelowIsDeeper(parent, x, c);
      }
      AncestorsAgree(parent, net, x, c);
      assert Refines(parent, net, c, x);
      assert net[a].batch + Joined(net[c].up) == [];
    }
  }

  /** The last thing that broker `x` was asked for in the run was to join. */
  predicate LastAskedToJoin(steps: seq<Step>, x: int)
  {
    steps != [] &&
    var s := steps[|steps| - 1];
    s == Join(x) || (s != Leave(x) && LastAskedToJoin(steps[..|steps| - 1], x))
  }

  lemma {:induction false} JoinedIffLastAsked(parent: seq<int>, steps: seq<Step>, x: int)
    requires IsTree(parent) && IsRank(parent, x)
    ensures Run(parent, steps)[x].joined <==> LastAskedToJoin(steps, x)
    decreases |steps|
  {
    if steps != [] {
      JoinedIffLastAsked(parent, steps[..|steps| - 1], x);
    }
  }

  /** In every run, whenever no update is queued or in flight, every broker's members are exactly the
      ranks of its subtree that were last asked to join; so rank 0 holds them all. */
  lemma GroupsAgreeAtQuiescence(parent: seq<int>, steps: seq<Step>, a: int)
    requires IsTree(parent) && Quiet(Run(parent, steps)) && IsRank(parent, a)
    ensures Run(parent, steps)[a].members
         == set x | 0 <= x < |parent| && Within(parent, x, a) && LastAskedToJoin(steps, x)
  {
    var net := Run(parent, steps);
    InvHolds(parent, steps);
    assert Scoped(parent, net, a);
    forall x | 0 <= x < |parent| && Within(parent, x, a)
      ensures x in net[a].members <==> LastAskedToJoin(steps, x)
    {
      AncestorsAgree(parent, net, x, a);
      JoinedIffLastAsked(parent, steps, x);
    }
  }

  /** At any time in any run, queued and in-flight updates included, a parent's view of a child's
      subtree is the child's own. */
  lemma ParentViewRefinesChild(parent: seq<int>, steps: seq<Step>, c: int, x: int)
    requires IsTree(parent) && 0 < c < |parent| && 0 <= x < |parent| && Within(parent, x, c)
    ensures Refines(parent, Run(parent, steps), c, x)
  {
    InvHolds(parent, steps);
  }

  /* ---- the service of one broker, as a node of the tree ---- */

  /** The update lists a service has sent up for one group. */
  function SentFor(sentUp: seq<Batch>, name: string): (lists: seq<seq<Update>>)
    ensures |lists| == |sentUp|
  {
    seq(|sentUp|, i requires 0 <= i < |sentUp| => Queued(sentUp[i], name))
  }

  /** What a service holds for one group, when its parent has received `taken` of its messages. */
  ghost function NodeOf(s: Service, name: string, taken: nat): Node
    requires taken <= |s.sentUp|
    reads s
  {
    Node(Members(s.members, name), Queued(s.batch, name), SentFor(s.sentUp, name)[taken..], name in s.joinedBy)
  }

  method ServiceJoins(s: Service, name: string, client: nat, taken: nat)
    requires taken <= |s.sentUp| && s.Valid()
    modifies s
    ensures taken <= |s.sentUp| && s.Valid()
    ensures NodeOf(s, name, taken) == JoinNode(old(NodeOf(s, name, taken)), s.rank)
  {
    var o := s.JoinRequest(name, client, true);
  }

  method ServiceLeaves(s: Service, name: string, taken: nat)
    requires taken <= |s.sentUp| && s.Valid()
    modifies s
    ensures taken <= |s.sentUp| && s.Valid()
    ensures NodeOf(s, name, taken) == LeaveNode(old(NodeOf(s, name, taken)), s.rank)
  {
    var o := s.LeaveRequest(name, true);
  }

  method ServiceFlushes(s: Service, name: string, taken: nat)
    requires taken <= |s.sentUp| && s.Valid()
    modifies s
    ensures taken <= |s.sentUp| && s.Valid()
    ensures NodeOf(s, name, taken) == FlushNode(old(NodeOf(s, name, taken)), s.rank)
  {
    ghost var lists := SentFor(s.sentUp, name);
    ghost var order := s.BatchFlush();
    assert s.rank > 0 ==> SentFor(s.sentUp, name) == lists + [Reduced(old(Queued(s.batch, name)))];
  }

  /** The parent's side of a delivery: it gets the first list its child has sent and it has not received. */
  method ServiceReceives(s: Service, child: Service, name: string, taken: nat)
    requires s != child && taken < |child.sentUp| && s.Valid()
    modifies s
    ensures s.Valid() && |s.sentUp| == old(|s.sentUp|)
    ensures NodeOf(child, name, taken + 1) == old(NodeOf(child, name, taken)).(up := old(NodeOf(child, name, taken)).up[1..])
    ensures NodeOf(s, name, |s.sentUp|)
         == old(NodeOf(s, name, |s.sentUp|)).(batch := old(Queued(s.batch, name)) + NodeOf(child, name, taken).up[0])
  {
    s.UpdateRequest(child.sentUp[taken]);
  }
}
