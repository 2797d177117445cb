/** Event distribution: rank 0 numbers events as it publishes them, and each broker passes on to its
    online children the events it has not seen before. */
module Events {
  import opened Tree
  import Overlay

  /** The last number used, after an attempt to publish. */
  function Numbered(last: nat, ok: bool): nat
  {
    if ok then last + 1 else last
  }

  /** A broker that has distributed `seen`, the last of which is `recv`, gets event `s`. */
  function Taken(recv: nat, seen: seq<nat>, s: nat): (nat, seq<nat>)
  {
    if s <= recv then (recv, seen) else (s, seen + [s])
  }

  datatype Outcome = Published(number: nat) | Refused

  /** The publisher on rank 0.  `sent` is the events handed to the senders, by number. */
  class Publisher {
    const rank: nat
    var number: nat
    ghost var sent: seq<nat>

    /** The events sent are numbered from 1 without a gap. */
    ghost predicate Valid()
      reads this
    {
      |sent| == number && forall i :: 0 <= i < number ==> sent[i] == i + 1
    }

    constructor (self: nat)
      ensures Valid() && rank == self && number == 0
    {
      rank, number, sent := self, 0, [];
    }

    method SendEvent(n: nat)
      modifies this`sent
      ensures sent == old(sent) + [n]
    {
      ghost var more := [n];
      sent := sent + more;
    }

    /** A request to publish: a bad request or a failed encoding uses up no number, and the number
        in the response is that of the event sent. */
    method Publish(wellFormed: bool, flagsOk: bool, credOk: bool, encodes: bool) returns (o: Outcome)
      requires Valid()
      modifies this
      ensures Valid()
      ensures o.Published? <==> wellFormed && rank == 0 && flagsOk && credOk && encodes
      ensures number == Numbered(old(number), o.Published?)
      ensures o.Published? ==> o.number == number && sent == old(sent) + [o.number]
      ensures !o.Published? ==> sent == old(sent)
    {
      if !wellFormed || rank > 0 || !flagsOk || !credOk {
        return Refused;
      }
      number := number + 1;
      if !encodes {
        number := number - 1;
        return Refused;
      }
      SendEvent(number);
      return Published(number);
    }

    /** An event message that was sent up to rank 0 to be published. */
    method Send(copies: bool, encodes: bool) returns (ok: bool)
      requires Valid()
      modifies this
      ensures Valid()
      ensures ok <==> copies && encodes
      ensures number == Numbered(old(number), ok)
      ensures sent == if ok then old(sent) + [number] else old(sent)
    {
      if !copies {
        return false;
      }
      number := number + 1;
      if !encodes {
        number := number - 1;
        return false;
      }
      SendEvent(number);
      return true;
    }
  }

  /** A broker's part in distributing events: it passes on those it has not seen before. */
  class Distributor {
    var recv: nat
    ghost var seen: seq<nat>

    ghost predicate Valid()
      reads this
    {
      && Increasing(seen)
      && (forall i :: 0 <= i < |seen| ==> seen[i] > 0)
      && recv == (if seen == [] then 0 else seen[|seen| - 1])
    }

    constructor ()
      ensures Valid() && recv == 0 && seen == []
    {
      recv, seen := 0, [];
    }

    /** An event is distributed exactly if its number is beyond that of every event before it; `lost` is
        how many numbers in between are reported as missing, which the first event never is. */
    method HandleEvent(wellFormed: bool, s: nat) returns (distributed: bool, lost: nat)
      requires Valid()
      modifies this
      ensures Valid()
      ensures distributed <==> wellFormed && s > 0 && forall i :: 0 <= i < |old(seen)| ==> old(seen)[i] < s
      ensures wellFormed ==> (recv, seen) == Taken(old(recv), old(seen), s)
      ensures distributed ==> recv == s && seen == old(seen) + [s]
      ensures !distributed ==> recv == old(recv) && seen == old(seen) && lost == 0
      ensures distributed && old(seen) != [] ==> lost == s - old(seen)[|old(seen)| - 1] - 1
      ensures old(seen) == [] ==> lost == 0
      ensures lost == 0 && Consecutive(old(seen)) ==> Consecutive(seen)
    {
      lost := 0;
      if !wellFormed || s <= recv {
        return false, 0;
      }
      if recv > 0 {
        var first := recv + 1;
        lost := s - first;
      }
      AppendIncreasing(seen, s);
      recv := s;
      seen := seen + [s];
      return true, lost;
    }
  }

  /** One broker: the number of the last event it distributed, all those it distributed, whether its
      parent counts it online, and the events on the way to it.  `since` is how many events its parent
      had distributed when it joined, and `steady` that it has been online, and no send to it has
      failed, from then on. */
  datatype Node = Node(
    recv: nat,
    seen: seq<nat>,
    joined: bool,
    online: bool,
    steady: bool,
    down: seq<nat>,
    since: nat)

  datatype Instance = Instance(parent: seq<int>, pub: nat, n: seq<Node>)

  ghost predicate WellFormed(g: Instance)
  {
    IsTree(g.parent) && |g.n| == |g.parent|
  }

  function Begin(parent: seq<int>): Instance
  {
    Instance(parent, 0, seq(|parent|, _ => Node(0, [], false, false, false, [], 0)))
  }

  /** Child `c` of a broker that distributes event `s`, when the send to it ends so. */
  function Sent(c: Node, s: nat, how: Overlay.SendResult): Node
  {
    if !c.online then c else
      match how
      case SendOk => c.(down := c.down + [s])
      case PeerGone => c.(online := false, steady := false)
      case SendError => c.(steady := false)
  }

  /** This is what the overlay's broadcast does to the i-th child. */
  lemma BroadcastSends(cs: seq<Overlay.Child>, results: seq<Overlay.SendResult>, i: nat, c: Node, s: nat)
    requires i < |cs| == |results| && (c.online <==> Overlay.IsOnline(cs[i].status))
    ensures Sent(c, s, results[i]).online <==> Overlay.IsOnline(Overlay.AllOffered(cs, results, |cs|)[i].status)
    ensures Sent(c, s, results[i]).down == c.down + if i in Overlay.Reached(cs, results) then [s] else []
  {
  }

  function Put(g: Instance, r: int, b: Node): Instance
    requires 0 <= r < |g.n|
  {
    g.(n := g.n[r := b])
  }

  /** Broker `r` sends event `s` to each of its children. */
  function Mcast(g: Instance, r: int, s: nat, how: int -> Overlay.SendResult): Instance
    requires |g.n| == |g.parent|
  {
    g.(n := seq(|g.n|, c requires 0 <= c < |g.n| => if c > 0 && g.parent[c] == r then Sent(g.n[c], s, how(c)) else g.n[c]))
  }

  /** Broker `r` handles event `s`, and ignores one that it has seen or is older than one it has seen. */
  function Handle(g: Instance, r: int, s: nat, how: int -> Overlay.SendResult): Instance
    requires 0 <= r < |g.n| == |g.parent|
  {
    var b := g.n[r];
    var (recv, seen) := Taken(b.recv, b.seen, s);
    if recv == b.recv then g else Mcast(Put(g, r, b.(recv := recv, seen := seen)), r, s, how)
  }

  datatype Step =
    | Publish(ok: bool, how: int -> Overlay.SendResult)
    | Receive(r: int, how: int -> Overlay.SendResult)
    | Join(r: int)
    | Leave(r: int)

  function Next(g: Instance, step: Step): (g1: Instance)
    requires WellFormed(g)
    ensures WellFormed(g1) && g1.parent == g.parent
  {
    match step
    case Publish(ok, how) => var n := Numbered(g.pub, ok); if !ok then g else Handle(g.(pub := n), 0, n, how)
    case Receive(r, how) =>
      if !(0 < r < |g.n|) || g.n[r].down == [] then g else
        var b := g.n[r];
        Handle(Put(g, r, b.(down := b.down[1..])), r, b.down[0], how)
    case Join(r) =>
      if !(0 < r < |g.n|) || g.n[r].joined then g else
        Put(g, r, g.n[r].(joined := true, online := true, steady := true, since := |g.n[g.parent[r]].seen|))
    case Leave(r) =>
      if !(0 < r < |g.n|) then g else Put(g, r, g.n[r].(online := false, steady := false))
  }

  function Run(g: Instance, steps: seq<Step>): (g1: Instance)
    requires WellFormed(g)
    ensures WellFormed(g1) && g1.parent == g.parent
  {
    if steps == [] then g else
      var k := |steps| - 1;
      Next(Run(g, steps[..k]), steps[k])
  }

  /* ---- what every step keeps ---- */

  ghost predicate Increasing(s: seq<nat>)
  {
    forall i, j :: 0 <= i < j < |s| ==> s[i] < s[j]
  }

  ghost predicate Consecutive(s: seq<nat>)
  {
    forall i, j :: 0 <= i < j < |s| ==> s[j] == s[i] + (j - i)
  }

  /** A broker's own record: events in increasing order, the last of which is remembered. */
  ghost predicate Own(b: Node)
  {
    && Increasing(b.seen + b.down)
    && (forall i :: 0 <= i < |b.seen + b.down| ==> (b.seen + b.down)[i] > 0)
    && b.recv == (if b.seen == [] then 0 else b.seen[|b.seen| - 1])
    && (!b.joined ==> !b.online && b.seen + b.down == [])
    && (b.steady ==> b.online)
  }

  /** What has reached a broker, or is on the way to it, has been distributed by its parent; and if the
      broker is steady, it is all that the parent has distributed since it joined. */
  ghost predicate Fed(b: Node, p: Node)
  {
    && (forall i :: 0 <= i < |b.seen + b.down| ==> (b.seen + b.down)[i] in p.seen)
    && (b.steady ==> b.since <= |p.seen| && b.seen + b.down == p.seen[b.since..])
  }

  ghost predicate Rooted(b: Node, pub: nat)
  {
    b.recv == pub == |b.seen| && b.down == [] && forall i :: 0 <= i < pub ==> b.seen[i] == i + 1
  }

  ghost predicate Inv(g: Instance)
  {
    && WellFormed(g)
    && Rooted(g.n[0], g.pub)
    && (forall r :: 0 < r < |g.n| ==> Own(g.n[r]) && Fed(g.n[r], g.n[g.parent[r]]))
  }

  lemma AppendIncreasing(t: seq<nat>, s: nat)
    requires Increasing(t) && forall i :: 0 <= i < |t| ==> t[i] < s
    ensures Increasing(t + [s])
  {
  }

  /** A broker that takes the next event off its queue: the whole of what it was sent does not change. */
  lemma TakeKeepsOwn(b: Node) returns (b1: Node)
    requires Own(b) && b.down != []
    ensures b.down[0] > b.recv
    ensures b1 == b.(down := b.down[1..], recv := b.down[0], seen := b.seen + [b.down[0]])
    ensures Own(b1) && b1.seen + b1.down == b.seen + b.down
  {
    b1 := b.(down := b.down[1..], recv := b.down[0], seen := b.seen + [b.down[0]]);
    var all := b.seen + b.down;
    assert all[|b.seen|] == b.down[0];
    if b.seen != [] {
      assert all[|b.seen| - 1] == b.recv;
    }
    assert b1.seen + b1.down == all;
  }

  /** A child whose parent distributes one more event, which is the largest so far. */
  lemma SentKeeps(c: Node, p: Node, p1: Node, s: nat, how: Overlay.SendResult)
    requires Own(c) && Fed(c, p) && s > 0 && p1.seen == p.seen + [s]
    requires forall i :: 0 <= i < |p.seen| ==> p.seen[i] < s
    ensures Own(Sent(c, s, how)) && Fed(Sent(c, s, how), p1)
  {
    var all := c.seen + c.down;
    assert forall i :: 0 <= i < |p.seen| ==> p1.seen[i] == p.seen[i];
    assert p1.seen[|p.seen|] == s;
    if c.online && how.SendOk? {
      assert c.seen + (c.down + [s]) == all + [s];
      forall i | 0 <= i < |all|
        ensures all[i] < s
      {
        assert all[i] in p.seen;
      }
      AppendIncreasing(all, s);
    }
    if Sent(c, s, how).steady {
      assert p1.seen[c.since..] == p.seen[c.since..] + [s];
    }
  }

  /** Every broker but `r` may have been sent an event by `r`. */
  lemma McastKeeps(g: Instance, r: int, b1: Node, s: nat, how: int -> Overlay.SendResult)
    requires WellFormed(g) && IsRank(g.parent, r) && s > 0
    requires forall c :: 0 < c < |g.n| && c != r ==> Own(g.n[c]) && Fed(g.n[c], g.n[g.parent[c]])
    requires b1.seen == g.n[r].seen + [s] && forall i :: 0 <= i < |g.n[r].seen| ==> g.n[r].seen[i] < s
    ensures var g1 := Mcast(Put(g, r, b1), r, s, how);
            forall c :: 0 < c < |g.n| && c != r ==> Own(g1.n[c]) && Fed(g1.n[c], g1.n[g.parent[c]])
  {
    var g1 := Mcast(Put(g, r, b1), r, s, how);
    forall c | 0 < c < |g.n| && c != r
      ensures Own(g1.n[c]) && Fed(g1.n[c], g1.n[g.parent[c]])
    {
      var p := g.parent[c];
      assert Own(g.n[c]) && Fed(g.n[c], g.n[p]);
      assert g1.n[p].seen == if p == r then b1.seen else g.n[p].seen;
      if p == r {
        SentKeeps(g.n[c], g.n[r], b1, s, how(c));
      }
    }
  }

  lemma PublishKeeps(g: Instance, how: int -> Overlay.SendResult)
    requires Inv(g)
    ensures Inv(Next(g, Publish(true, how)))
  {
    var s := g.pub + 1;
    var b := g.n[0];
    McastKeeps(g.(pub := s), 0, b.(recv := s, seen := b.seen + [s]), s, how);
  }

  lemma ReceiveKeeps(g: Instance, r: int, how: int -> Overlay.SendResult)
    requires Inv(g) && 0 < r < |g.n| && g.n[r].down != []
    ensures Inv(Next(g, Receive(r, how)))
  {
    var b := g.n[r];
    assert Own(b) && Fed(b, g.n[g.parent[r]]);
    var s := b.down[0];
    var b1 := TakeKeepsOwn(b);
    NotOwnParent(g.parent, r);
    var g1 := Next(g, Receive(r, how));
    assert Put(Put(g, r, b.(down := b.down[1..])), r, b1) == Put(g, r, b1);
    assert g1 == Mcast(Put(g, r, b1), r, s, how);
    forall i | 0 <= i < |b.seen|
      ensures b.seen[i] < s
    {
      assert (b.seen + b.down)[i] < (b.seen + b.down)[|b.seen|];
    }
    assert (b.seen + b.down)[|b.seen|] == s;
    McastKeeps(g, r, b1, s, how);
    assert g1.n[r] == b1;
    assert g1.n[g.parent[r]].seen == g.n[g.parent[r]].seen;
  }

  lemma PutKeeps(g: Instance, r: int, b1: Node)
    requires Inv(g) && 0 < r < |g.n| && Own(b1) && Fed(b1, g.n[g.parent[r]]) && b1.seen == g.n[r].seen
    ensures Inv(Put(g, r, b1))
  {
    NotOwnParent(g.parent, r);
    forall c | 0 < c < |g.n|
      ensures Own(Put(g, r, b1).n[c]) && Fed(Put(g, r, b1).n[c], Put(g, r, b1).n[g.parent[c]])
    {
      assert Own(g.n[c]) && Fed(g.n[c], g.n[g.parent[c]]);
    }
  }

  lemma NextKeeps(g: Instance, step: Step)
    requires Inv(g)
    ensures Inv(Next(g, step))
  {
    match step
    case Publish(ok, how) => if ok { PublishKeeps(g, how); }
    case Receive(r, how) => if 0 < r < |g.n| && g.n[r].down != [] { ReceiveKeeps(g, r, how); }
    case Join(r) =>
      if 0 < r < |g.n| && !g.n[r].joined {
        var b, p := g.n[r], g.n[g.parent[r]];
        assert Own(b) && Fed(b, p);
        assert p.seen[|p.seen|..] == [];
        PutKeeps(g, r, b.(joined := true, online := true, steady := true, since := |p.seen|));
      }
    case Leave(r) =>
      if 0 < r < |g.n| {
        assert Own(g.n[r]) && Fed(g.n[r], g.n[g.parent[r]]);
        PutKeeps(g, r, g.n[r].(online := false, steady := false));
      }
  }

  lemma {:induction false} InvHolds(parent: seq<int>, steps: seq<Step>)
    requires IsTree(parent)
    ensures Inv(Run(Begin(parent), steps))
  {
    if steps != [] {
      var k := |steps| - 1;
      InvHolds(parent, steps[..k]);
      NextKeeps(Run(Begin(parent), steps[..k]), steps[k]);
    }
  }

  /* ---- what brokers distribute ---- */

  /** How many attempts to publish have succeeded. */
  function Published(steps: seq<Step>): nat
  {
    if steps == [] then 0 else
      var k := |steps| - 1;
      Published(steps[..k]) + if steps[k].Publish? && steps[k].ok then 1 else 0
  }

  lemma {:induction false} EachSuccessIsNumbered(parent: seq<int>, steps: seq<Step>)
    requires IsTree(parent)
    ensures Run(Begin(parent), steps).pub == Published(steps)
  {
    if steps != [] {
      EachSuccessIsNumbered(parent, steps[..|steps| - 1]);
    }
  }

  lemma RootedIsNumbered(g: Instance)
    requires Inv(g)
    ensures g.n[0].seen == seq(g.pub, i => i + 1)
  {
  }

  /** Rank 0 distributes exactly the numbers from 1 to the count of successful attempts to publish,
      whatever encodings failed in between. */
  lemma RootHasNoGap(parent: seq<int>, steps: seq<Step>)
    requires IsTree(parent)
    ensures Run(Begin(parent), steps).n[0].seen == seq(Published(steps), i => i + 1)
  {
    InvHolds(parent, steps);
    RootedIsNumbered(Run(Begin(parent), steps));
    EachSuccessIsNumbered(parent, steps);
  }

  lemma {:induction false} SeenIsPublished(g: Instance, r: int, i: nat)
    requires Inv(g) && IsRank(g.parent, r) && i < |g.n[r].seen|
    ensures 1 <= g.n[r].seen[i] <= g.pub
    decreases SomeLevels(g.parent)[r]
  {
    if r != 0 {
      var b, p := g.n[r], g.parent[r];
      assert Own(b) && Fed(b, g.n[p]);
      assert (b.seen + b.down)[i] == b.seen[i];
      var j :| 0 <= j < |g.n[p].seen| && g.n[p].seen[j] == b.seen[i];
      SeenIsPublished(g, p, j);
    }
  }

  /** In every run, what a broker distributes is a strictly increasing subsequence of the publisher's
      numbering, and all of it was distributed by its parent. */
  lemma DistributionIsOrdered(parent: seq<int>, steps: seq<Step>, r: int)
    requires IsTree(parent) && IsRank(parent, r)
    ensures var g := Run(Begin(parent), steps);
            && Increasing(g.n[r].seen)
            && (forall i :: 0 <= i < |g.n[r].seen| ==> 1 <= g.n[r].seen[i] <= Published(steps))
            && (r > 0 ==> forall i :: 0 <= i < |g.n[r].seen| ==> g.n[r].seen[i] in g.n[parent[r]].seen)
  {
    InvHolds(parent, steps);
    EachSuccessIsNumbered(parent, steps);
    var g := Run(Begin(parent), steps);
    var b := g.n[r];
    forall i | 0 <= i < |b.seen|
      ensures 1 <= b.seen[i] <= g.pub
    {
      SeenIsPublished(g, r, i);
    }
    if r > 0 {
      assert Own(b) && Fed(b, g.n[parent[r]]);
      var all := b.seen + b.down;
      assert forall i :: 0 <= i < |b.seen| ==> all[i] == b.seen[i];
    }
  }

  predicate Joins(step: Step, r: int)
  {
    step.Join? && step.r == r
  }

  /** The step does not take broker `r` off line, and what it sends to `r`, if anything, is sent. */
  predicate SendsTo(step: Step, r: int)
  {
    match step
    case Publish(_, how) => how(r).SendOk?
    case Receive(_, how) => how(r).SendOk?
    case Join(_) => true
    case Leave(x) => x != r
  }

  /** Broker `r` joins at step `j`, and from then on stays online with no failed sends. */
  ghost predicate SteadySince(steps: seq<Step>, r: int, j: nat)
  {
    && j < |steps| && Joins(steps[j], r)
    && (forall k :: 0 <= k < j ==> !Joins(steps[k], r))
    && (forall k :: j < k < |steps| ==> SendsTo(steps[k], r))
  }

  lemma HandleKeepsJoined(g: Instance, q: int, s: nat, how: int -> Overlay.SendResult, r: int)
    requires 0 <= q < |g.n| == |g.parent| && 0 <= r < |g.n|
    ensures |Handle(g, q, s, how).n| == |g.n| && Handle(g, q, s, how).n[r].joined == g.n[r].joined
  {
    var b := g.n[q];
    var (recv, seen) := Taken(b.recv, b.seen, s);
    var g1 := Put(g, q, b.(recv := recv, seen := seen));
    assert Mcast(g1, q, s, how).n[r] == if r > 0 && g.parent[r] == q then Sent(g1.n[r], s, how(r)) else g1.n[r];
  }

  lemma OnlyJoinJoins(g: Instance, step: Step, r: int)
    requires WellFormed(g) && 0 < r < |g.n| && !g.n[r].joined
    ensures !Joins(step, r) ==> !Next(g, step).n[r].joined
    ensures var b := Next(g, step).n[r];
            Joins(step, r) ==> b.joined && b.online && b.steady && b.since == |g.n[g.parent[r]].seen|
  {
    match step
    case Publish(ok, how) => HandleKeepsJoined(g.(pub := g.pub + 1), 0, g.pub + 1, how, r);
    case Receive(q, how) =>
      if 0 < q < |g.n| && g.n[q].down != [] {
        var b := g.n[q];
        HandleKeepsJoined(Put(g, q, b.(down := b.down[1..])), q, b.down[0], how, r);
      }
    case Join(_) =>
    case Leave(_) =>
  }

  lemma {:induction false} NotJoinedYet(parent: seq<int>, steps: seq<Step>, r: int)
    requires IsTree(parent) && 0 < r < |parent| && forall k :: 0 <= k < |steps| ==> !Joins(steps[k], r)
    ensures !Run(Begin(parent), steps).n[r].joined
  {
    if steps != [] {
      var k := |steps| - 1;
      NotJoinedYet(parent, steps[..k], r);
      OnlyJoinJoins(Run(Begin(parent), steps[..k]), steps[k], r);
    }
  }

  lemma StaysSteady(g: Instance, step: Step, r: int)
    requires Inv(g) && 0 < r < |g.n| && g.n[r].joined && g.n[r].online && g.n[r].steady && SendsTo(step, r)
    ensures var b := Next(g, step).n[r]; b.joined && b.online && b.steady && b.since == g.n[r].since
  {
  }

  lemma {:induction false} SteadyFrom(parent: seq<int>, steps: seq<Step>, r: int, j: nat)
    requires IsTree(parent) && 0 < r < |parent| && SteadySince(steps, r, j)
    ensures var b := Run(Begin(parent), steps).n[r];
            && b.joined && b.online && b.steady
            && b.since == |Run(Begin(parent), steps[..j]).n[parent[r]].seen|
  {
    var k := |steps| - 1;
    var before, step := steps[..k], steps[k];
    var g := Run(Begin(parent), before);
    assert Run(Begin(parent), steps) == Next(g, step);
    if j == k {
      NotJoinedYet(parent, before, r);
      OnlyJoinJoins(g, step, r);
    } else {
      assert before[..j] == steps[..j] && SteadySince(before, r, j);
      SteadyFrom(parent, before, r, j);
      InvHolds(parent, before);
      StaysSteady(g, step, r);
    }
  }

  /** A broker that stays online with no failed sends distributes, in order, all that its parent has
      distributed since it joined, but for what is still on the way. */
  lemma SteadyMissesNothing(parent: seq<int>, steps: seq<Step>, r: int, j: nat)
    requires IsTree(parent) && 0 < r < |parent| && SteadySince(steps, r, j)
    ensures var g, since := Run(Begin(parent), steps), |Run(Begin(parent), steps[..j]).n[parent[r]].seen|;
            var b, p := g.n[r], g.n[parent[r]];
            since <= |p.seen| && b.seen + b.down == p.seen[since..]
  {
    InvHolds(parent, steps);
    SteadyFrom(parent, steps, r, j);
  }

  /** `r` and every broker above it have stayed online with no failed sends since they joined. */
  ghost predicate SteadyChain(parent: seq<int>, steps: seq<Step>, r: int)
    requires IsTree(parent) && IsRank(parent, r)
    decreases SomeLevels(parent)[r]
  {
    r == 0 || ((exists j: nat :: SteadySince(steps, r, j)) && SteadyChain(parent, steps, parent[r]))
  }

  /** From its first event on, such a broker distributes every number without a gap. */
  lemma {:induction false} SteadyIsGapFree(parent: seq<int>, steps: seq<Step>, r: int)
    requires IsTree(parent) && IsRank(parent, r) && SteadyChain(parent, steps, r)
    ensures Consecutive(Run(Begin(parent), steps).n[r].seen)
    decreases SomeLevels(parent)[r]
  {
    if r == 0 {
      RootHasNoGap(parent, steps);
    } else {
      var j: nat :| SteadySince(steps, r, j);
      SteadyIsGapFree(parent, steps, parent[r]);
      SteadyMissesNothing(parent, steps, r, j);
      var g, since := Run(Begin(parent), steps), |Run(Begin(parent), steps[..j]).n[parent[r]].seen|;
      PartIsConsecutive(g.n[parent[r]].seen, since, g.n[r].seen, g.n[r].down);
    }
  }

  lemma PartIsConsecutive(all: seq<nat>, since: nat, seen: seq<nat>, down: seq<nat>)
    requires Consecutive(all) && since <= |all| && seen + down == all[since..]
    ensures Consecutive(seen)
  {
    assert forall i :: 0 <= i < |seen| ==> seen[i] == (seen + down)[i] == all[since + i];
  }
}
