/** Subtree health over the whole instance: status travels up the tree in control messages, and once
    they have all been handled rank 0's status tells the state of every link. */
module Health {
  import opened Tree
  import Topology
  import opened Overlay

  datatype Message = Hello(status: Status) | Report(status: Status) | Goodbye

  /** How far a broker's connection to its parent has come: it has not said hello; its hello is on the
      way; it was accepted; it has said goodbye; or the parent listens to it no more, because it was
      refused, has left or is lost.  A broker that restarts begins again, while its parent may still
      record the old connection as online. */
  datatype Phase = Apart | Hailing | Joined | Parting | Over

  /** One broker: its summary of its own subtree, what its parent has `recorded` of it, and what it has
      sent its parent that was not yet handled.  What it may send once its parent listens no more
      is ignored there, and left out. */
  datatype Node = Node(status: Status, recorded: Status, phase: Phase, up: seq<Message>)

  datatype Instance = Instance(parent: seq<int>, n: seq<Node>)

  ghost predicate WellFormed(g: Instance)
  {
    IsTree(g.parent) && |g.n| == |g.parent|
  }

  predicate IsChild(g: Instance, c: int, r: int)
  {
    0 < c < |g.n| == |g.parent| && g.parent[c] == r
  }

  /** The summary of what `r` has recorded of its children. */
  function Sum(g: Instance, r: int): Status
  {
    if exists c :: 0 < c < |g.n| && IsChild(g, c, r) && Degrades(g.n[c].recorded) then DEGRADED
    else if exists c :: 0 < c < |g.n| && IsChild(g, c, r) && Dents(g.n[c].recorded) then PARTIAL
    else FULL
  }

  function Put(g: Instance, r: int, b: Node): Instance
    requires 0 <= r < |g.n|
  {
    g.(n := g.n[r := b])
  }

  predicate Sends(b: Node)
  {
    b.phase.Hailing? || b.phase.Joined?
  }

  /** A broker takes on the summary of its children, and reports a change. */
  function Update(g: Instance, r: int): Instance
    requires 0 <= r < |g.n|
  {
    var b, s := g.n[r], Sum(g, r);
    if s == b.status then g
    else Put(g, r, b.(status := s, up := if Sends(b) then b.up + [Report(s)] else b.up))
  }

  /** The parent of `c` has handled a message from it, or lost it. */
  function Record(g: Instance, c: int, b: Node): Instance
    requires 0 < c < |g.n| == |g.parent| && 0 <= g.parent[c] < |g.n|
  {
    Update(Put(g, c, b), g.parent[c])
  }

  /** What a parent makes of a hello: it accepts it, refuses it for its version, or takes no notice because it
      is shutting down. */
  datatype Welcome = Accepted | Refused | Ignored

  datatype Step =
    | Connect(r: int)
    | SayGoodbye(r: int)
    | Receive(r: int, how: Welcome)     // the parent of r handles the next message from r
    | Lose(r: int)                      // the parent of r finds its connection broken
    | Restart(r: int, kept: set<int>)   // r starts anew; the hellos of `kept` still reach it
    | Leftover(r: int, status: Status)  // the parent of r handles a message r sent before it restarted

  /** The parent records the broker as online. */
  predicate CountedOnline(b: Node)
  {
    IsOnline(b.recorded)
  }

  /** The parent's record of the broker is of its present connection. */
  predicate Current(b: Node)
  {
    b.phase.Joined? || b.phase.Parting?
  }

  /** What the parent of `b` makes of the next message from it; an old connection is dropped first. */
  function Handled(b: Node, how: Welcome): Node
    requires b.up != []
  {
    var b1 := b.(up := b.up[1..]);
    match b.phase
    case Apart | Over => b1
    case Hailing =>
      if b.up[0].Hello? && how.Accepted? then b1.(recorded := b.up[0].status, phase := Joined) else b1.(phase := Over)
    case Joined | Parting =>
      match b.up[0]
      case Hello(_) => b1
      case Report(s) => b1.(recorded := s)
      case Goodbye => b1.(recorded := OFFLINE, phase := Over)
  }

  function Lost(b: Node): Node
  {
    b.(recorded := LOST, phase := if Current(b) then Over else b.phase)
  }

  /** A hello from a broker that is recorded as online means that it has crashed: the old connection is
      lost first, unless no notice is taken. */
  function OldLost(g: Instance, r: int, how: Welcome): (g1: Instance)
    requires WellFormed(g) && 0 < r < |g.n|
    ensures WellFormed(g1) && g1.parent == g.parent
  {
    if g.n[r].phase.Hailing? && CountedOnline(g.n[r]) && !how.Ignored? then Record(g, r, Lost(g.n[r])) else g
  }

  function Received(g: Instance, r: int, how: Welcome): (g1: Instance)
    requires WellFormed(g) && 0 < r < |g.n|
    ensures WellFormed(g1) && g1.parent == g.parent
  {
    var g1 := OldLost(g, r, how);
    if g1.n[r].up == [] then g1 else Record(g1, r, Handled(g1.n[r], how))
  }

  /** A child of a broker that starts anew. */
  function Orphaned(c: Node, kept: bool): Node
  {
    c.(recorded := OFFLINE, phase := if c.phase.Apart? || (c.phase.Hailing? && kept) then c.phase else Over)
  }

  function WithOrphans(g: Instance, r: int, kept: set<int>): (g1: Instance)
    ensures g1.parent == g.parent && |g1.n| == |g.n|
  {
    g.(n := seq(|g.n|, c requires 0 <= c < |g.n| => if IsChild(g, c, r) then Orphaned(g.n[c], c in kept) else g.n[c]))
  }

  /** A broker that starts anew knows its children as offline; what its parent records does not change. */
  function Restarted(g: Instance, r: int, kept: set<int>): (g1: Instance)
    requires WellFormed(g) && 0 < r < |g.n|
    ensures WellFormed(g1) && g1.parent == g.parent
  {
    var g1 := WithOrphans(g, r, kept);
    Put(g1, r, g.n[r].(status := Sum(g1, r), phase := Apart, up := []))
  }

  function Next(g: Instance, s: Step): (g1: Instance)
    requires WellFormed(g)
    ensures WellFormed(g1) && g1.parent == g.parent
  {
    if !(0 < s.r < |g.n|) then g else
    var b := g.n[s.r];
    match s
    case Connect(r) => if b.phase.Apart? then Put(g, r, b.(phase := Hailing, up := [Hello(b.status)])) else g
    case SayGoodbye(r) => if b.phase.Joined? then Put(g, r, b.(phase := Parting, up := b.up + [Goodbye])) else g
    case Receive(r, how) => if b.up == [] then g else Received(g, r, how)
    case Lose(r) => if CountedOnline(b) then Record(g, r, Lost(b)) else g
    case Restart(r, kept) => Restarted(g, r, kept)
    case Leftover(r, s) =>
      if CountedOnline(b) && !Current(b) && (IsOnline(s) || s.OFFLINE?) then Record(g, r, b.(recorded := s)) else g
  }

  function Run(g: Instance, steps: seq<Step>): (g1: Instance)
    requires WellFormed(g)
    ensures WellFormed(g1) && g1.parent == g.parent
  {
    if steps == [] then g else
      var k := |steps| - 1;
      Next(Run(g, steps[..k]), steps[k])
  }

  /** No broker has said hello; each has recorded its children, if any, as offline. */
  ghost predicate Start(g: Instance)
  {
    && WellFormed(g)
    && forall r :: 0 <= r < |g.n| ==> g.n[r] == Node(Sum(g, r), OFFLINE, Apart, [])
  }

  /* ---- what every step keeps ---- */

  predicate Reports(up: seq<Message>)
  {
    forall i :: 0 <= i < |up| ==> up[i].Report? && IsOnline(up[i].status)
  }

  /** The last status among the messages, or `s` if there is none. */
  function Latest(s: Status, up: seq<Message>): Status
    requires forall i :: 0 <= i < |up| ==> !up[i].Goodbye?
  {
    if up == [] then s else up[|up| - 1].status
  }

  predicate Known(s: Status)
  {
    IsOnline(s) || s.LOST? || s.OFFLINE?
  }

  /** While a connection is open, what is on the way will bring the parent's record up to date. */
  ghost predicate Good(b: Node)
  {
    match b.phase
    case Apart => Known(b.recorded) && b.up == []
    case Hailing =>
      && Known(b.recorded) && b.up != [] && b.up[0].Hello? && IsOnline(b.up[0].status) && Reports(b.up[1..])
      && Latest(b.up[0].status, b.up[1..]) == b.status
    case Joined => IsOnline(b.recorded) && Reports(b.up) && Latest(b.recorded, b.up) == b.status
    case Parting =>
      && IsOnline(b.recorded) && b.up != [] && b.up[|b.up| - 1].Goodbye? && Reports(b.up[..|b.up| - 1])
    case Over => Known(b.recorded)
  }

  /** The status of a broker is the summary of what it has recorded. */
  predicate Summed(g: Instance, r: int)
    requires 0 <= r < |g.n|
  {
    g.n[r].status == Sum(g, r)
  }

  ghost predicate Inv(g: Instance)
  {
    && WellFormed(g)
    && (forall r :: 0 <= r < |g.n| ==> Summed(g, r))
    && (forall r :: 0 < r < |g.n| ==> Good(g.n[r]))
  }

  lemma SumSame(g: Instance, g1: Instance, r: int)
    requires g1.parent == g.parent && |g1.n| == |g.n|
    requires forall c :: IsChild(g, c, r) ==> g1.n[c].recorded == g.n[c].recorded
    ensures Sum(g1, r) == Sum(g, r)
  {
    assert forall c :: IsChild(g1, c, r) <==> IsChild(g, c, r);
  }

  lemma ReportKeepsGood(b: Node, s: Status)
    requires Good(b) && IsOnline(s)
    ensures Good(b.(status := s, up := if Sends(b) then b.up + [Report(s)] else b.up))
  {
    var up1 := b.up + [Report(s)];
    if b.phase.Hailing? {
      assert up1[1..] == b.up[1..] + [Report(s)];
    }
  }

  /** Everything holds but that the summary of `p` may be out of date. */
  ghost predicate InvBut(g: Instance, p: int)
  {
    && WellFormed(g)
    && (forall r :: 0 <= r < |g.n| && r != p ==> Summed(g, r))
    && (forall r :: 0 < r < |g.n| ==> Good(g.n[r]))
  }

  lemma UpdateRestores(g: Instance, p: int)
    requires InvBut(g, p) && 0 <= p < |g.n|
    ensures Inv(Update(g, p))
  {
    var g1 := Update(g, p);
    if 0 < p {
      ReportKeepsGood(g.n[p], Sum(g, p));
    }
    forall r | 0 <= r < |g.n|
      ensures Summed(g1, r)
    {
      assert r != p ==> Summed(g, r);
      SumSame(g, g1, r);
    }
  }

  lemma PutKeeps(g: Instance, c: int, b: Node)
    requires Inv(g) && 0 < c < |g.n| && Good(b) && b.status == g.n[c].status
    ensures InvBut(Put(g, c, b), g.parent[c])
    ensures b.recorded == g.n[c].recorded ==> Inv(Put(g, c, b))
  {
    var g1 := Put(g, c, b);
    forall r | 0 <= r < |g.n| && (r != g.parent[c] || b.recorded == g.n[c].recorded)
      ensures Summed(g1, r)
    {
      assert Summed(g, r);
      SumSame(g, g1, r);
    }
  }

  lemma HandledKeepsGood(b: Node, how: Welcome)
    requires Good(b) && b.up != []
    ensures Good(Handled(b, how))
  {
    var up := b.up;
    if b.phase.Joined? || (b.phase.Parting? && |up| > 1) {
      assert up[0].Report?;
    }
    if b.phase.Parting? && |up| > 1 {
      assert up[1..][..|up| - 2] == up[..|up| - 1][1..];
    }
  }

  lemma RecordKeeps(g: Instance, r: int, b: Node)
    requires Inv(g) && 0 < r < |g.n| && Good(b) && b.status == g.n[r].status
    ensures Inv(Record(g, r, b))
  {
    PutKeeps(g, r, b);
    UpdateRestores(Put(g, r, b), g.parent[r]);
  }

  lemma ReceivedKeeps(g: Instance, r: int, how: Welcome)
    requires Inv(g) && 0 < r < |g.n|
    ensures Inv(Received(g, r, how))
  {
    assert Good(g.n[r]);
    var g1 := OldLost(g, r, how);
    if g.n[r].phase.Hailing? && CountedOnline(g.n[r]) && !how.Ignored? {
      RecordKeeps(g, r, Lost(g.n[r]));
    }
    assert Good(g1.n[r]);
    if g1.n[r].up != [] {
      HandledKeepsGood(g1.n[r], how);
      RecordKeeps(g1, r, Handled(g1.n[r], how));
    }
  }

  lemma RestartedKeeps(g: Instance, r: int, kept: set<int>)
    requires Inv(g) && 0 < r < |g.n|
    ensures Inv(Restarted(g, r, kept))
  {
    OrphansKeep(g, r, kept);
    var g1, g2 := WithOrphans(g, r, kept), Restarted(g, r, kept);
    NotOwnParent(g.parent, r);
    forall x | 0 <= x < |g.n|
      ensures Summed(g2, x)
    {
      assert x != r ==> Summed(g1, x);
      SumSame(g1, g2, x);
    }
  }

  lemma OrphansKeep(g: Instance, r: int, kept: set<int>)
    requires Inv(g) && 0 < r < |g.n|
    ensures InvBut(WithOrphans(g, r, kept), r) && WithOrphans(g, r, kept).n[r] == g.n[r]
  {
    var g1 := WithOrphans(g, r, kept);
    NotOwnParent(g.parent, r);
    forall x | 0 <= x < |g.n| && x != r
      ensures Summed(g1, x)
    {
      assert Summed(g, x);
      SumSame(g, g1, x);
    }
    forall x | 0 < x < |g.n|
      ensures Good(g1.n[x])
    {
      assert Good(g.n[x]);
    }
  }

  lemma NextKeeps(g: Instance, s: Step)
    requires Inv(g)
    ensures Inv(Next(g, s))
  {
    if 0 < s.r < |g.n| {
      var b := g.n[s.r];
      assert Good(b) && Summed(g, s.r);
      match s
      case Connect(r) =>
        if b.phase.Apart? {
          PutKeeps(g, r, b.(phase := Hailing, up := [Hello(b.status)]));
        }
      case SayGoodbye(r) =>
        if b.phase.Joined? {
          var b1 := b.(phase := Parting, up := b.up + [Goodbye]);
          assert b1.up[..|b1.up| - 1] == b.up;
          PutKeeps(g, r, b1);
        }
      case Receive(r, how) => if b.up != [] { ReceivedKeeps(g, r, how); }
      case Lose(r) => if CountedOnline(b) { RecordKeeps(g, r, Lost(b)); }
      case Restart(r, kept) => RestartedKeeps(g, r, kept);
      case Leftover(r, s) =>
        if CountedOnline(b) && !Current(b) && (IsOnline(s) || s.OFFLINE?) { RecordKeeps(g, r, b.(recorded := s)); }
    }
  }

  /** In every run, every broker's status is the summary of what it has recorded of its children. */
  lemma {:induction false} InvHolds(g: Instance, steps: seq<Step>)
    requires Start(g)
    ensures Inv(Run(g, steps))
  {
    if steps != [] {
      var k := |steps| - 1;
      InvHolds(g, steps[..k]);
      NextKeeps(Run(g, steps[..k]), steps[k]);
    }
  }

  /* ---- what last happened to a connection ---- */

  /** What last happened to a broker's connection at its parent: nothing since the parent started, it was
      welcomed, it left with a goodbye, or it was found broken. */
  datatype Fate = Never | Welcomed | Left | Broken

  /** What a step makes of it, in terms of the messages handled and connections found broken; `g` is the
      instance before the step.  A hello from a broker that is thought to be there shows that its old
      connection is broken. */
  function FateAfter(g: Instance, s: Step, x: int, f: Fate): Fate
    requires 0 < x < |g.n| == |g.parent|
  {
    var b := g.n[x];
    match s
    case Connect(_) => f
    case SayGoodbye(_) => f
    case Lose(r) => if r == x && f.Welcomed? then Broken else f
    case Restart(r, _) => if 0 < r && r == g.parent[x] then Never else f
    case Leftover(r, status) => if r == x && f.Welcomed? && !Current(b) && status.OFFLINE? then Left else f
    case Receive(r, how) =>
      if r != x || b.up == [] then f
      else if b.phase.Hailing? then
        (if how.Accepted? then Welcomed else if how.Refused? && f.Welcomed? then Broken else f)
      else if Current(b) && b.up[0].Goodbye? then Left
      else f
  }

  function FateIn(g: Instance, steps: seq<Step>, x: int): Fate
    requires WellFormed(g) && 0 < x < |g.n|
  {
    if steps == [] then Never else
      var k := |steps| - 1;
      FateAfter(Run(g, steps[..k]), steps[k], x, FateIn(g, steps[..k], x))
  }

  /** What a parent records of a broker with that fate. */
  predicate Tells(recorded: Status, f: Fate)
  {
    match f
    case Never | Left => recorded == OFFLINE
    case Welcomed => IsOnline(recorded)
    case Broken => recorded == LOST
  }

  lemma RecordElsewhere(g: Instance, c: int, b: Node, x: int)
    requires WellFormed(g) && 0 < c < |g.n| && 0 < x < |g.n|
    ensures Record(g, c, b).n[x].recorded == if x == c then b.recorded else g.n[x].recorded
  {
  }

  /** A broker's node once its old connection has been dropped. */
  function OldLostAt(b: Node, how: Welcome): Node
  {
    if b.phase.Hailing? && CountedOnline(b) && !how.Ignored? then Lost(b) else b
  }

  lemma ReceivedAt(g: Instance, x: int, how: Welcome)
    requires WellFormed(g) && 0 < x < |g.n| && g.n[x].up != []
    ensures OldLost(g, x, how).n[x] == OldLostAt(g.n[x], how)
    ensures Next(g, Receive(x, how)) == Record(OldLost(g, x, how), x, Handled(OldLostAt(g.n[x], how), how))
    ensures Next(g, Receive(x, how)).n[x].recorded == Handled(OldLostAt(g.n[x], how), how).recorded
  {
    NotOwnParent(g.parent, x);
    RecordElsewhere(OldLost(g, x, how), x, Handled(OldLostAt(g.n[x], how), how), x);
  }

  lemma HandledTells(g: Instance, x: int, how: Welcome, f: Fate)
    requires 0 < x < |g.n| == |g.parent| && Good(g.n[x]) && g.n[x].up != [] && Tells(g.n[x].recorded, f)
    ensures Tells(Handled(OldLostAt(g.n[x], how), how).recorded, FateAfter(g, Receive(x, how), x, f))
  {
    var b := g.n[x];
    if b.phase.Parting? && |b.up| > 1 {
      assert b.up[..|b.up| - 1][0] == b.up[0];
    }
  }

  lemma ReceivedTells(g: Instance, x: int, how: Welcome, f: Fate)
    requires Inv(g) && 0 < x < |g.n| && Tells(g.n[x].recorded, f)
    ensures Tells(Next(g, Receive(x, how)).n[x].recorded, FateAfter(g, Receive(x, how), x, f))
  {
    if g.n[x].up != [] {
      ReceivedAt(g, x, how);
      HandledTells(g, x, how, f);
    }
  }

  lemma ReceivedElsewhere(g: Instance, r: int, how: Welcome, x: int)
    requires WellFormed(g) && 0 < r < |g.n| && 0 < x < |g.n| && r != x
    ensures Received(g, r, how).n[x].recorded == g.n[x].recorded
  {
    var g1 := OldLost(g, r, how);
    RecordElsewhere(g, r, Lost(g.n[r]), x);
    if g1.n[r].up != [] {
      RecordElsewhere(g1, r, Handled(g1.n[r], how), x);
    }
  }

  lemma StepTells(g: Instance, s: Step, x: int, f: Fate)
    requires Inv(g) && 0 < x < |g.n| && Tells(g.n[x].recorded, f)
    ensures Tells(Next(g, s).n[x].recorded, FateAfter(g, s, x, f))
  {
    if 0 < s.r < |g.n| {
      match s
      case Receive(r, how) =>
        if r == x {
          ReceivedTells(g, x, how, f);
        } else if g.n[r].up != [] {
          ReceivedElsewhere(g, r, how, x);
        }
      case Lose(r) => RecordElsewhere(g, r, Lost(g.n[r]), x);
      case Leftover(r, status) => RecordElsewhere(g, r, g.n[r].(recorded := status), x);
      case _ =>
    }
  }

  /** In every run, the record a parent has of a broker tells what last happened to its connection. */
  lemma {:induction false} RecordsTellFate(g: Instance, steps: seq<Step>, x: int)
    requires Start(g) && 0 < x < |g.n|
    ensures Tells(Run(g, steps).n[x].recorded, FateIn(g, steps, x))
  {
    if steps != [] {
      var k := |steps| - 1;
      RecordsTellFate(g, steps[..k], x);
      InvHolds(g, steps[..k]);
      StepTells(Run(g, steps[..k]), steps[k], x, FateIn(g, steps[..k], x));
    }
  }

  /* ---- once every message has been handled ---- */

  /** No message is on the way, and no connection is recorded as online that is not there any more. */
  ghost predicate Quiet(g: Instance)
  {
    forall r :: 0 <= r < |g.n| ==> g.n[r].up == [] && (r > 0 && CountedOnline(g.n[r]) ==> Current(g.n[r]))
  }

  predicate Linked(g: Instance, r: int)
  {
    0 < r < |g.n| && g.n[r].phase.Joined?
  }

  /** A record is exact if the link is up, and otherwise says offline or lost. */
  lemma RecordsAreCurrent(g: Instance, c: int)
    requires Inv(g) && Quiet(g) && 0 < c < |g.n|
    ensures Linked(g, c) <==> IsOnline(g.n[c].recorded)
    ensures Linked(g, c) ==> g.n[c].recorded == g.n[c].status
    ensures !Linked(g, c) ==> g.n[c].recorded == OFFLINE || g.n[c].recorded == LOST
  {
    assert Good(g.n[c]) && g.n[c].up == [];
  }

  lemma {:induction false} FullMeansLinked(g: Instance, r: int, x: int)
    requires Inv(g) && Quiet(g) && IsRank(g.parent, x) && Within(g.parent, x, r) && IsRank(g.parent, r)
    requires g.n[r].status == FULL
    ensures g.n[x].status == FULL && (x != r ==> Linked(g, x))
    decreases SomeLevels(g.parent)[x]
  {
    if x != r {
      var p := g.parent[x];
      FullMeansLinked(g, r, p);
      assert IsChild(g, x, p) && Summed(g, p);
      RecordsAreCurrent(g, x);
    }
  }

  lemma {:induction false} LinkedMeansFull(g: Instance, r: int)
    requires Inv(g) && Quiet(g) && IsRank(g.parent, r)
    requires forall x :: 0 < x < |g.n| && Below(g.parent, x, r) ==> Linked(g, x)
    ensures g.n[r].status == FULL
    decreases Descendants(g.parent, r)
  {
    forall c | IsChild(g, c, r)
      ensures g.n[c].recorded == FULL
    {
      Topology.ChildrenHaveFewerDescendants(g.parent, r, c);
      forall x | 0 < x < |g.n| && Below(g.parent, x, c)
        ensures Linked(g, x)
      {
        BelowTransitive(g.parent, x, c, r);
      }
      LinkedMeansFull(g, c);
      RecordsAreCurrent(g, c);
    }
    assert Summed(g, r);
  }

  /** Once all messages are handled and broken connections noticed, a broker is FULL exactly if every rank
      of its subtree is connected. */
  lemma FullIffAllLinked(g: Instance, steps: seq<Step>, r: int)
    requires Start(g) && IsRank(g.parent, r) && Quiet(Run(g, steps))
    ensures Run(g, steps).n[r].status == FULL
       <==> forall x :: 0 < x < |g.n| && Below(g.parent, x, r) ==> Linked(Run(g, steps), x)
  {
    InvHolds(g, steps);
    var g1 := Run(g, steps);
    if g1.n[r].status == FULL {
      forall x | 0 < x < |g.n| && Below(g.parent, x, r)
        ensures Linked(g1, x)
      {
        BelowIsDeeper(g.parent, x, r);
        FullMeansLinked(g1, r, x);
      }
    } else if forall x :: 0 < x < |g.n| && Below(g.parent, x, r) ==> Linked(g1, x) {
      LinkedMeansFull(g1, r);
    }
  }

  /** Every link from `b` up to `r` is up. */
  ghost predicate OnlineChain(g: Instance, b: int, r: int)
    requires WellFormed(g) && IsRank(g.parent, b)
    decreases SomeLevels(g.parent)[b]
  {
    b == r || (Linked(g, b) && OnlineChain(g, g.parent[b], r))
  }

  /** A chain of links that are up leads from `r` to a broker that records its child `x` as lost. */
  ghost predicate LossRecorded(g: Instance, r: int, x: int)
    requires WellFormed(g)
  {
    0 < x < |g.n| && g.n[x].recorded == LOST && OnlineChain(g, g.parent[x], r)
  }

  /** After the run, a chain of links that are up leads from `r` to a broker for whose child `x` the last
      thing that happened was that its connection was found broken. */
  ghost predicate LossVisible(g: Instance, steps: seq<Step>, r: int, x: int)
    requires WellFormed(g)
  {
    0 < x < |g.n| && FateIn(g, steps, x) == Broken && OnlineChain(Run(g, steps), g.parent[x], r)
  }

  lemma {:induction false} LossTravelsUp(g: Instance, b: int, r: int)
    requires Inv(g) && Quiet(g) && IsRank(g.parent, b) && OnlineChain(g, b, r)
    requires g.n[b].status == DEGRADED
    ensures IsRank(g.parent, r) && g.n[r].status == DEGRADED
    decreases SomeLevels(g.parent)[b]
  {
    if b != r {
      RecordsAreCurrent(g, b);
      assert IsChild(g, b, g.parent[b]) && Summed(g, g.parent[b]);
      LossTravelsUp(g, g.parent[b], r);
    }
  }

  lemma {:induction false} ChainExtends(g: Instance, b: int, c: int)
    requires WellFormed(g) && IsRank(g.parent, b) && OnlineChain(g, b, c) && Linked(g, c)
    ensures OnlineChain(g, b, g.parent[c])
    decreases SomeLevels(g.parent)[b]
  {
    if b != c {
      ChainExtends(g, g.parent[b], c);
    } else {
      assert OnlineChain(g, g.parent[c], g.parent[c]);
    }
  }

  lemma {:induction false} LossIsFound(g: Instance, r: int) returns (x: int)
    requires Inv(g) && Quiet(g) && IsRank(g.parent, r) && g.n[r].status == DEGRADED
    ensures LossRecorded(g, r, x)
    decreases Descendants(g.parent, r)
  {
    assert Summed(g, r);
    var c :| 0 < c < |g.n| && IsChild(g, c, r) && Degrades(g.n[c].recorded);
    RecordsAreCurrent(g, c);
    if g.n[c].recorded == LOST {
      x := c;
    } else {
      Topology.ChildrenHaveFewerDescendants(g.parent, r, c);
      x := LossIsFound(g, c);
      ChainExtends(g, g.parent[x], c);
    }
  }

  predicate LastWelcomed(g: Instance, steps: seq<Step>, x: int)
    requires WellFormed(g) && 0 < x < |g.n|
  {
    FateIn(g, steps, x) == Welcomed
  }

  /** Once all messages are handled and broken connections noticed, a link is up exactly if the last thing
      that happened to it was a welcome. */
  lemma LinkedIffWelcomed(g: Instance, steps: seq<Step>, x: int)
    requires Start(g) && 0 < x < |g.n| && Quiet(Run(g, steps))
    ensures Linked(Run(g, steps), x) <==> LastWelcomed(g, steps, x)
  {
    InvHolds(g, steps);
    RecordsAreCurrent(Run(g, steps), x);
    RecordsTellFate(g, steps, x);
  }

  /** Then a broker is DEGRADED exactly if a chain of links that are up leads down from it to a broker whose
      last news of a child was that its connection was broken. */
  lemma DegradedIffLossVisible(g: Instance, steps: seq<Step>, r: int)
    requires Start(g) && IsRank(g.parent, r) && Quiet(Run(g, steps))
    ensures Run(g, steps).n[r].status == DEGRADED <==> exists x :: LossVisible(g, steps, r, x)
  {
    InvHolds(g, steps);
    var g1 := Run(g, steps);
    if g1.n[r].status == DEGRADED {
      var x := LossIsFound(g1, r);
      RecordsTellFate(g, steps, x);
      assert LossVisible(g, steps, r, x);
    }
    if x :| LossVisible(g, steps, r, x) {
      RecordsTellFate(g, steps, x);
      assert IsChild(g1, x, g1.parent[x]) && Summed(g1, g1.parent[x]);
      LossTravelsUp(g1, g1.parent[x], r);
    }
  }

  lemma RootIsFullIff(g: Instance, steps: seq<Step>)
    requires Start(g) && Quiet(Run(g, steps))
    ensures Run(g, steps).n[0].status == FULL <==> forall x :: 0 < x < |g.n| ==> LastWelcomed(g, steps, x)
  {
    FullIffAllLinked(g, steps, 0);
    forall x | 0 < x < |g.n|
      ensures Below(g.parent, x, 0) && (Linked(Run(g, steps), x) <==> LastWelcomed(g, steps, x))
    {
      EveryRankIsUnderRoot(g.parent, x);
      LinkedIffWelcomed(g, steps, x);
    }
    if forall x :: 0 < x < |g.n| ==> LastWelcomed(g, steps, x) {
      assert forall x :: 0 < x < |g.n| ==> Linked(Run(g, steps), x);
    } else {
      var x :| 0 < x < |g.n| && !LastWelcomed(g, steps, x);
      assert Below(g.parent, x, 0) && !Linked(Run(g, steps), x);
    }
  }

  /** What rank 0 shows, once all messages are handled and broken connections noticed. */
  lemma RootTellsAll(g: Instance, steps: seq<Step>)
    requires Start(g) && Quiet(Run(g, steps))
    ensures Run(g, steps).n[0].status == FULL <==> forall x :: 0 < x < |g.n| ==> LastWelcomed(g, steps, x)
    ensures Run(g, steps).n[0].status == DEGRADED <==> exists x :: LossVisible(g, steps, 0, x)
    ensures var s := Run(g, steps).n[0].status; s == FULL || s == PARTIAL || s == DEGRADED
  {
    InvHolds(g, steps);
    assert Summed(Run(g, steps), 0);
    RootIsFullIff(g, steps);
    DegradedIffLossVisible(g, steps, 0);
  }

  /* ---- one broker's view of its children ---- */

  predicate Lists(cs: seq<Child>, c: int)
  {
    exists i :: 0 <= i < |cs| && cs[i].rank == c
  }

  /** `cs` is the children of `r`, with what it has recorded of them. */
  ghost predicate Records(cs: seq<Child>, g: Instance, r: int)
  {
    && (forall i :: 0 <= i < |cs| ==> IsChild(g, cs[i].rank, r) && cs[i].status == g.n[cs[i].rank].recorded)
    && (forall c :: IsChild(g, c, r) ==> Lists(cs, c))
  }

  /** `v` is the view that broker `r` has of its children. */
  ghost predicate Represents(v: View, g: Instance, r: int)
  {
    0 <= r < |g.n| && v.rank == r && v.status == g.n[r].status && Records(v.children, g, r)
  }

  lemma SummaryIsSum(cs: seq<Child>, g: Instance, r: int)
    requires Records(cs, g, r)
    ensures Summary(cs) == Sum(g, r)
  {
    forall c | IsChild(g, c, r)
      ensures exists i :: 0 <= i < |cs| && cs[i].status == g.n[c].recorded
    {
      assert Lists(cs, c);
    }
  }

  lemma RecordsFollow(cs: seq<Child>, ds: seq<Child>, g: Instance, g1: Instance, r: int)
    requires Records(cs, g, r) && |ds| == |cs| && g1.parent == g.parent && |g1.n| == |g.n|
    requires forall i :: 0 <= i < |cs| ==> ds[i].rank == cs[i].rank && ds[i].status == g1.n[cs[i].rank].recorded
    ensures Records(ds, g1, r)
  {
    forall c | IsChild(g1, c, r)
      ensures Lists(ds, c)
    {
      assert IsChild(g, c, r) && Lists(cs, c);
      var k :| 0 <= k < |cs| && cs[k].rank == c;
      assert ds[k].rank == c;
    }
  }

  /** `v1` is `v` with the status of child `i` changed to `s`, summarised, and reported if need be. */
  ghost predicate Moved(v: View, v1: View, i: nat, s: Status)
  {
    && i < |v.children| == |v1.children| && v1.rank == v.rank
    && (forall j :: 0 <= j < |v.children| ==> v1.children[j].rank == v.children[j].rank)
    && (forall j :: 0 <= j < |v.children| ==> v1.children[j].status == if j == i then s else v.children[j].status)
    && v1.status == Summary(v1.children)
    && v1.reports == if v1.status == v.status || v.rank == 0 then v.reports else v.reports + [v1.status]
  }

  lemma StatusChangedMoves(v: View, i: nat, s: Status)
    requires i < |v.children| && v.status == Summary(v.children)
    ensures Moved(v, StatusChanged(v, i, s), i, s)
  {
  }

  lemma RecordedFollows(v: View, v1: View, g: Instance, p: int, i: nat, b: Node)
    requires Records(v.children, g, p) && DistinctRanks(v.children) && Moved(v, v1, i, b.recorded)
    ensures Records(v1.children, Put(g, v.children[i].rank, b), p)
  {
    RecordsFollow(v.children, v1.children, g, Put(g, v.children[i].rank, b), p);
  }

  lemma UpdateFollows(cs: seq<Child>, g: Instance, p: int)
    requires 0 <= p < |g.n| && Records(cs, g, p)
    ensures Records(cs, Update(g, p), p) && Update(g, p).n[p].status == Summary(cs)
  {
    SummaryIsSum(cs, g, p);
    RecordsFollow(cs, cs, g, Update(g, p), p);
  }

  /** The model of one broker's overlay and this one agree on a change of a child's status, and on
      whether it is reported. */
  lemma StatusChangeIsRecord(v: View, g: Instance, p: int, i: nat, b: Node)
    requires WellFormed(g) && Represents(v, g, p) && DistinctRanks(v.children) && i < |v.children|
    requires v.status == Summary(v.children)
    ensures Moved(v, StatusChanged(v, i, b.recorded), i, b.recorded)
    ensures Represents(StatusChanged(v, i, b.recorded), Record(g, v.children[i].rank, b), p)
  {
    StatusChangedMoves(v, i, b.recorded);
    var v1, c := StatusChanged(v, i, b.recorded), v.children[i].rank;
    RecordedFollows(v, v1, g, p, i, b);
    UpdateFollows(v1.children, Put(g, c, b), p);
  }

  /** A connection found broken is what an unreachable child is in the table: lost. */
  lemma LoseIsOldDropped(v: View, g: Instance, p: int, i: nat)
    requires WellFormed(g) && Valid(v) && Represents(v, g, p) && i < |v.children|
    ensures Represents(OldDropped(v, i), Next(g, Lose(v.children[i].rank)), p)
  {
    var c := v.children[i].rank;
    if IsOnline(v.children[i].status) {
      StatusChangeIsRecord(v, g, p, i, Lost(g.n[c]));
    }
  }

  /** What the parent makes of a message from a child it is connected to. */
  lemma HandledFollows(v: View, g: Instance, p: int, i: nat, how: Welcome)
    requires WellFormed(g) && Valid(v) && Represents(v, g, p) && i < |v.children|
    requires Current(g.n[v.children[i].rank]) && g.n[v.children[i].rank].up != []
    ensures var c := v.children[i].rank;
      Represents(StatusChanged(v, i, Handled(g.n[c], how).recorded), Next(g, Receive(c, how)), p)
  {
    var c := v.children[i].rank;
    ReceivedAt(g, c, how);
    StatusChangeIsRecord(v, g, p, i, Handled(g.n[c], how));
  }

  /** A status report, or a goodbye whose reply was sent, is what it is in the table. */
  lemma ReportIsControl(v: View, g: Instance, p: int, i: nat, how: Welcome)
    requires Inv(g) && Valid(v) && Represents(v, g, p) && i < |v.children|
    requires var b := g.n[v.children[i].rank]; Current(b) && b.up != [] && b.up[0].Report?
    ensures var c := v.children[i].rank;
      IsOnline(v.children[i].status) && Represents(StatusChanged(v, i, g.n[c].up[0].status), Next(g, Receive(c, how)), p)
  {
    assert Good(g.n[v.children[i].rank]);
    HandledFollows(v, g, p, i, how);
  }

  lemma DepartedIsOffline(v: View, i: nat)
    requires Valid(v) && i < |v.children| && IsOnline(v.children[i].status)
    ensures Departed(v, v.children[i].uuid, SendOk) == StatusChanged(v, i, OFFLINE)
  {
    assert v.childHash[v.children[i].uuid] == i;
  }

  lemma GoodbyeIsDeparted(v: View, g: Instance, p: int, i: nat, how: Welcome)
    requires Inv(g) && Valid(v) && Represents(v, g, p) && i < |v.children|
    requires var b := g.n[v.children[i].rank]; Current(b) && b.up != [] && b.up[0].Goodbye?
    ensures Represents(Departed(v, v.children[i].uuid, SendOk), Next(g, Receive(v.children[i].rank, how)), p)
  {
    assert Good(g.n[v.children[i].rank]);
    DepartedIsOffline(v, i);
    HandledFollows(v, g, p, i, how);
  }

  lemma OldDroppedFollows(v: View, g: Instance, p: int, i: nat, how: Welcome)
    requires WellFormed(g) && Valid(v) && Represents(v, g, p) && i < |v.children|
    requires g.n[v.children[i].rank].phase.Hailing? && !how.Ignored?
    ensures Represents(OldDropped(v, i), OldLost(g, v.children[i].rank, how), p)
    ensures Valid(OldDropped(v, i)) && !IsOnline(OldDropped(v, i).children[i].status)
  {
    var c := v.children[i].rank;
    OldDroppedKeeps(v, i);
    if IsOnline(v.children[i].status) {
      StatusChangeIsRecord(v, g, p, i, Lost(g.n[c]));
    }
  }

  lemma RecordingFollows(v: View, g: Instance, p: int, i: nat, uuid: Uuid)
    requires Represents(v, g, p) && i < |v.children|
    ensures Represents(Recorded(v, i, uuid), g, p)
  {
    RecordsFollow(v.children, Recorded(v, i, uuid).children, g, g, p);
  }

  lemma GreetedStepByStep(v: View, i: nat, uuid: Uuid, s: Status, ok: bool)
    requires DistinctRanks(v.children) && i < |v.children|
    ensures |OldDropped(v, i).children| == |v.children| && OldDropped(v, i).children[i].rank == v.children[i].rank
    ensures Greeted(v, v.children[i].rank, uuid, s, ok)
         == if ok then StatusChanged(Recorded(OldDropped(v, i), i, uuid), i, s) else OldDropped(v, i)
  {
    FindRankUnique(v.children, v.children[i].rank, i);
  }

  lemma AcceptedFollows(v: View, g: Instance, p: int, i: nat, uuid: Uuid, b: Node)
    requires WellFormed(g) && Valid(v) && Represents(v, g, p) && i < |v.children| && !IsOnline(v.children[i].status)
    ensures Represents(StatusChanged(Recorded(v, i, uuid), i, b.recorded), Record(g, v.children[i].rank, b), p)
  {
    RecordingKeeps(v, i, uuid);
    RecordingFollows(v, g, p, i, uuid);
    StatusChangeIsRecord(Recorded(v, i, uuid), g, p, i, b);
  }

  lemma RefusedFollows(v: View, g: Instance, p: int, i: nat, b: Node)
    requires WellFormed(g) && Valid(v) && Represents(v, g, p) && i < |v.children| && b.recorded == v.children[i].status
    ensures Represents(v, Record(g, v.children[i].rank, b), p)
  {
    StatusChangeIsRecord(v, g, p, i, b);
  }

  /** A hello that is handled, accepted or refused for its version, is what it is in the table. */
  lemma HelloIsGreeted(v: View, g: Instance, p: int, i: nat, uuid: Uuid, how: Welcome)
    requires WellFormed(g) && Valid(v) && Represents(v, g, p) && i < |v.children| && !how.Ignored?
    requires var b := g.n[v.children[i].rank]; b.phase.Hailing? && b.up != [] && b.up[0].Hello?
    ensures var c := v.children[i].rank;
      Represents(Greeted(v, c, uuid, g.n[c].up[0].status, how.Accepted?), Next(g, Receive(c, how)), p)
  {
    var c := v.children[i].rank;
    GreetedStepByStep(v, i, uuid, g.n[c].up[0].status, how.Accepted?);
    OldDroppedFollows(v, g, p, i, how);
    ReceivedAt(g, c, how);
    var b := Handled(OldLostAt(g.n[c], how), how);
    if how.Accepted? {
      AcceptedFollows(OldDropped(v, i), OldLost(g, c, how), p, i, uuid, b);
    } else {
      RefusedFollows(OldDropped(v, i), OldLost(g, c, how), p, i, b);
    }
  }

  lemma IgnoredFollows(v: View, g: Instance, p: int, i: nat)
    requires WellFormed(g) && Valid(v) && Represents(v, g, p) && i < |v.children|
    requires var b := g.n[v.children[i].rank]; b.phase.Hailing? && b.up != [] && b.up[0].Hello?
    ensures Represents(v, Next(g, Receive(v.children[i].rank, Ignored)), p)
  {
    var c := v.children[i].rank;
    ReceivedAt(g, c, Ignored);
    RefusedFollows(v, g, p, i, Handled(g.n[c], Ignored));
  }

  /** A hello from a peer that is not online, by whatever comes of it: no notice is taken of it while shutting
      down or without the right credentials, it is refused for its version, or it is accepted. */
  lemma HelloIsHandled(v: View, g: Instance, p: int, i: nat, uuid: Uuid, closing: bool, authorized: bool, versionOk: bool)
    requires WellFormed(g) && Valid(v) && Represents(v, g, p) && i < |v.children| && uuid !in v.childHash
    requires var b := g.n[v.children[i].rank]; b.phase.Hailing? && b.up != [] && b.up[0].Hello?
    ensures var c := v.children[i].rank;
      var how := if closing || !authorized then Ignored else if versionOk then Accepted else Refused;
      Represents(HelloHandled(v, uuid, closing, authorized, c, uuid, g.n[c].up[0].status, versionOk, SendOk),
                 Next(g, Receive(c, how)), p)
  {
    if closing || !authorized {
      IgnoredFollows(v, g, p, i);
    } else {
      HelloIsGreeted(v, g, p, i, uuid, if versionOk then Accepted else Refused);
    }
  }

  /** A reply that finds child `i` gone loses it, if it is online. */
  lemma RepliedLoses(v: View, i: nat, uuid: Uuid)
    requires Valid(v) && i < |v.children| && v.children[i].uuid == uuid
    requires uuid in v.childHash ==> IsOnline(v.children[i].status)
    ensures Replied(v, uuid, PeerGone) == OldDropped(v, i)
  {
  }

  /** When the reply to a hello that was accepted finds the peer gone, that is a connection found broken. */
  lemma HelloReplyIsLost(v: View, g: Instance, p: int, i: nat, uuid: Uuid)
    requires WellFormed(g) && Valid(v) && Represents(v, g, p) && i < |v.children| && uuid !in v.childHash
    requires var b := g.n[v.children[i].rank]; b.phase.Hailing? && b.up != [] && b.up[0].Hello?
    ensures var c := v.children[i].rank;
      Represents(HelloHandled(v, uuid, false, true, c, uuid, g.n[c].up[0].status, true, PeerGone),
                 Next(Next(g, Receive(c, Accepted)), Lose(c)), p)
  {
    var c := v.children[i].rank;
    var s := g.n[c].up[0].status;
    var v1 := Greeted(v, c, uuid, s, true);
    GreetedStepByStep(v, i, uuid, s, true);
    HelloIsGreeted(v, g, p, i, uuid, Accepted);
    HelloOfItsSenderKeeps(v, uuid, false, true, c, s, true, SendOk);
    assert v1 == HelloHandled(v, uuid, false, true, c, uuid, s, true, SendOk);
    GreetedAt(v, i, uuid, s);
    RepliedLoses(v1, i, uuid);
    LoseIsOldDropped(v1, Next(g, Receive(c, Accepted)), p, i);
  }

  lemma GreetedAt(v: View, i: nat, uuid: Uuid, s: Status)
    requires Valid(v) && i < |v.children| && uuid !in v.childHash
    ensures var v1 := Greeted(v, v.children[i].rank, uuid, s, true);
      && |v1.children| == |v.children| && v1.children[i].rank == v.children[i].rank && v1.children[i].uuid == uuid
      && (uuid in v1.childHash ==> IsOnline(v1.children[i].status))
  {
    GreetedStepByStep(v, i, uuid, s, true);
  }
}
