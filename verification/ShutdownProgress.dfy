/** Shut-down does not stall: a broker in SHUTDOWN waits for a child that has not finished, or for a message
    or event that is still to be handled. */
module ShutdownProgress {
  import opened Tree
  import Topology
  import opened Lifecycle
  import opened Shutdown

  /** A broker that says goodbye gets its message off. */
  predicate GoodbyeGoes(s: Step)
  {
    s.Dispatch? ==> !s.env.goodbyeFails
  }

  ghost predicate GoodbyesGo(steps: seq<Step>)
  {
    forall i :: 0 <= i < |steps| ==> GoodbyeGoes(steps[i])
  }

  /** A broker in SHUTDOWN that counts no child online has this queued. */
  ghost predicate Counts(m: Machine, peers: nat)
  {
    m.state == SHUTDOWN && peers == 0 ==> CountedNone(m)
  }

  /** A broker that has reached GOODBYE has said so; once that has been handled, its parent does not count it
      online, and no hello is left that could bring it back. */
  ghost predicate Parted(b: Broker, r: int)
  {
    && (b.m.state == GOODBYE || b.m.state == EXIT ==> r == 0 || b.saidBye)
    && (Bye in b.up ==> b.saidBye)
    && (b.saidBye && Bye !in b.up ==> b.status != Up && Hello !in b.up)
    && (forall i, j :: 0 <= i < j < |b.up| && b.up[i].Bye? ==> !b.up[j].Hello?)
  }

  ghost predicate Fine(g: Instance, r: int)
    requires WellFormed(g) && IsRank(g.parent, r)
  {
    Counts(g.b[r].m, |OnlineChildren(g, r)|) && Parted(g.b[r], r)
  }

  ghost predicate Flowing(g: Instance)
  {
    WellFormed(g) && forall r :: 0 <= r < |g.b| ==> Fine(g, r)
  }

  /** Broker `r` changes in anything but its status. */
  lemma PutFlows(g: Instance, r: int, b1: Broker)
    requires Flowing(g) && IsRank(g.parent, r) && b1.status == g.b[r].status
    requires Counts(b1.m, |OnlineChildren(g, r)|) && Parted(b1, r)
    ensures Flowing(Put(g, r, b1))
  {
    var g1 := Put(g, r, b1);
    forall q | 0 <= q < |g.b|
      ensures Fine(g1, q)
    {
      assert Fine(g, q);
      assert OnlineChildren(g1, q) == OnlineChildren(g, q);
    }
  }

  lemma NotifyCounts(m: Machine, perr: bool, peers: nat)
    ensures Counts(OverlayChange(m, perr, peers), peers)
    ensures OverlayChange(m, perr, peers).state == m.state
  {
  }

  /** Everything holds but that `p` may not have noticed how many children it counts. */
  ghost predicate FlowingBut(g: Instance, p: int)
  {
    && WellFormed(g)
    && (forall r :: 0 <= r < |g.b| ==> Parted(g.b[r], r))
    && (forall r :: 0 <= r < |g.b| && r != p ==> Counts(g.b[r].m, |OnlineChildren(g, r)|))
  }

  lemma NotifyFlows(g: Instance, p: int, perr: bool)
    requires FlowingBut(g, p) && IsRank(g.parent, p)
    ensures Flowing(Notify(g, p, perr))
  {
    var g1 := Notify(g, p, perr);
    NotifyCounts(g.b[p].m, perr && p != 0, |OnlineChildren(g, p)|);
    forall q | 0 <= q < |g.b|
      ensures Fine(g1, q)
    {
      assert OnlineChildren(g1, q) == OnlineChildren(g, q);
      assert Parted(g.b[q], q);
    }
  }

  lemma FlowingIsEnough(g: Instance, p: int)
    requires Flowing(g)
    ensures FlowingBut(g, p)
  {
    forall r | 0 <= r < |g.b|
      ensures Parted(g.b[r], r) && Counts(g.b[r].m, |OnlineChildren(g, r)|)
    {
      assert Fine(g, r);
    }
  }

  lemma PutStatusFlows(g: Instance, r: int, b1: Broker)
    requires Flowing(g) && 0 < r < |g.b| && b1.m == g.b[r].m && Parted(b1, r)
    ensures FlowingBut(Put(g, r, b1), g.parent[r])
  {
    var g1 := Put(g, r, b1);
    FlowingIsEnough(g, g.parent[r]);
    forall q | 0 <= q < |g.b| && q != g.parent[r]
      ensures Counts(g1.b[q].m, |OnlineChildren(g1, q)|)
    {
      assert OnlineChildren(g1, q) == OnlineChildren(g, q);
    }
  }

  /** The record of broker `r` changes, and its parent is notified. */
  lemma SetStatusFlows(g: Instance, r: int, b1: Broker, s: Status, perr: bool)
    requires Flowing(g) && 0 < r < |g.b| && b1.m == g.b[r].m && Parted(b1.(status := s), r)
    ensures Flowing(SetStatus(Put(g, r, b1), r, s, perr))
  {
    PutStatusFlows(g, r, b1.(status := s));
    assert Put(Put(g, r, b1), r, b1.(status := s)) == Put(g, r, b1.(status := s));
    NotifyFlows(Put(g, r, b1.(status := s)), g.parent[r], perr);
  }

  lemma DispatchCounts(c: Config, m: Machine, env: Env)
    requires Counts(m, env.childPeers)
    ensures Counts(Lifecycle.Dispatch(c, m, env), env.childPeers)
  {
    if m.events != [] {
      assert m.events == [m.events[0]] + m.events[1..];
    }
  }

  lemma DispatchParts(c: Config, b: Broker, env: Env)
    requires Parted(b, c.rank) && !env.goodbyeFails
    ensures Parted(DispatchOne(c, b, env), c.rank)
  {
    var b1 := DispatchOne(c, b, env);
    if b1.up != b.up {
      assert b1.up == b.up + [Bye];
      assert b1.up[|b.up|] == Bye;
    }
  }

  lemma DispatchFlows(g: Instance, r: int, env: Env)
    requires Flowing(g) && IsRank(g.parent, r) && !env.goodbyeFails
    ensures Flowing(Next(g, Dispatch(r, env)))
  {
    var e := env.(childPeers := |OnlineChildren(g, r)|);
    assert Fine(g, r);
    DispatchCounts(g.config[r], g.b[r].m, e);
    DispatchParts(g.config[r], g.b[r], e);
    PutFlows(g, r, DispatchOne(g.config[r], g.b[r], e));
  }

  lemma TailParts(b: Broker, r: int)
    requires Parted(b, r) && b.up != []
    ensures Parted(b.(up := b.up[1..], status := if b.up[0].Bye? then Left else b.status), r)
    ensures b.up[0].Hello? ==> Parted(b.(up := b.up[1..], status := Up), r)
  {
    assert b.up == [b.up[0]] + b.up[1..];
  }

  lemma ReceiveFlows(g: Instance, r: int, accepted: bool, perr: bool)
    requires Flowing(g) && 0 < r < |g.b| && g.b[r].up != []
    ensures Flowing(Next(g, Receive(r, accepted, perr)))
  {
    assert Fine(g, r);
    var b := g.b[r];
    var b1 := b.(up := b.up[1..]);
    TailParts(b, r);
    if b.status == Up && b.up[0].Bye? {
      SetStatusFlows(g, r, b1, Left, perr);
    } else if b.status != Up && b.up[0].Hello? && !g.b[g.parent[r]].closing && accepted {
      SetStatusFlows(g, r, b1, Up, perr);
    } else {
      assert b.up == [b.up[0]] + b.up[1..];
      PutFlows(g, r, b1);
    }
  }

  lemma StepFlows(g: Instance, s: Step)
    requires Flowing(g) && GoodbyeGoes(s)
    ensures Flowing(Next(g, s))
  {
    if IsRank(g.parent, s.r) {
      var r, b := s.r, g.b[s.r];
      assert Fine(g, r);
      match s
      case ToMachine(_, i) =>
        if External(i) && Heard(g, r, i) {
          ExternalCounts(g.config[r], b.m, i);
          PutFlows(g, r, b.(m := Apply(g.config[r], b.m, i)));
        }
      case Dispatch(_, env) => DispatchFlows(g, r, env);
      case SayHello(_) =>
        if r != 0 && !b.saidHello && !b.saidBye { PutFlows(g, r, b.(up := b.up + [Hello], saidHello := true)); }
      case SendOther(_) =>
        if r != 0 && b.saidHello && !b.saidBye { PutFlows(g, r, b.(up := b.up + [Other])); }
      case Receive(_, accepted, perr) =>
        if r != 0 && b.up != [] { ReceiveFlows(g, r, accepted, perr); }
      case Lose(_, perr) =>
        if r != 0 && b.status == Up {
          assert Put(g, r, b) == g;
          SetStatusFlows(g, r, b, Status.Lost, perr);
        }
      case ParentChange(_, perr) => FlowingIsEnough(g, r); NotifyFlows(g, r, perr);
    }
  }

  lemma {:induction false} RunFlows(parent: seq<int>, config: seq<Config>, steps: seq<Step>)
    requires WellFormed(Begin(parent, config)) && GoodbyesGo(steps)
    ensures Flowing(Run(Begin(parent, config), steps))
    decreases |steps|
  {
    if steps != [] {
      var k := |steps| - 1;
      RunFlows(parent, config, steps[..k]);
      StepFlows(Run(Begin(parent, config), steps[..k]), steps[k]);
    }
  }

  /** Nothing is queued at a broker or on its way from it; and if it is counted online, it waits in SHUTDOWN
      for its children, or is done. */
  ghost predicate Idle(b: Broker)
  {
    b.m.events == [] && b.up == [] && (b.status == Up ==> b.m.state == SHUTDOWN || b.m.state == EXIT)
  }

  lemma {:induction false} NobodyWaits(g: Instance, p: int)
    requires Flowing(g) && IsRank(g.parent, p) && forall r :: 0 <= r < |g.b| ==> Idle(g.b[r])
    ensures g.b[p].m.state != SHUTDOWN
    decreases Descendants(g.parent, p)
  {
    assert Fine(g, p) && Idle(g.b[p]);
    if g.b[p].m.state == SHUTDOWN {
      var c :| c in OnlineChildren(g, p);
      Topology.ChildrenHaveFewerDescendants(g.parent, p, c);
      assert Fine(g, c) && Idle(g.b[c]);
      NobodyWaits(g, c);
    }
  }

  /** In every run of every tree in which goodbyes get off: once nothing is queued or on its way, and every
      broker that is counted online is in SHUTDOWN or done, no broker is in SHUTDOWN. */
  lemma ShutDownDoesNotStall(parent: seq<int>, config: seq<Config>, steps: seq<Step>, r: int)
    requires WellFormed(Begin(parent, config)) && GoodbyesGo(steps) && IsRank(parent, r)
    requires forall q :: 0 <= q < |parent| ==> Idle(Run(Begin(parent, config), steps).b[q])
    ensures Run(Begin(parent, config), steps).b[r].m.state != SHUTDOWN
  {
    RunFlows(parent, config, steps);
    NobodyWaits(Run(Begin(parent, config), steps), r);
  }
}
