/** Start-up does not stall: when nothing fails, and nothing is left to be done or delivered, every broker of
    the tree is in RUN. */
module StartupProgress {
  import opened Tree
  import opened Lifecycle
  import GroupTree
  import opened Startup

  /** Events that do not take a broker beyond RUN. */
  predicate Smooth(e: Event)
  {
    e !in [ParentFail, Rc1Fail, QuorumFail, Rc2Success, Rc2Fail, Stop]
  }

  /** Steps of a start-up in which no script, request or connection fails and nobody is told to stop. */
  predicate SmoothStep(s: Step)
  {
    match s
    case PostExternal(_, e) => Smooth(e)
    case Dispatch(_, env) => !env.startFails && !env.joinFails
    case LoseParent(_) => false
    case GroupLeave(_, _) => false
    case GroupDrop(_) => false
    case _ => true
  }

  ghost predicate SmoothRun(steps: seq<Step>)
  {
    forall i :: 0 <= i < |steps| ==> SmoothStep(steps[i])
  }

  /* ---- one machine ---- */

  predicate AllSmooth(events: seq<Event>)
  {
    forall i :: 0 <= i < |events| ==> Smooth(events[i])
  }

  /** Whatever a broker no longer has to wait for is queued. */
  ghost predicate Going(c: Config, m: Machine)
  {
    && Ord(m.state) <= Ord(RUN) && !m.parentError && AllSmooth(m.events)
    && (m.parentValid ==> Ord(m.parentState) <= Ord(RUN))
    && (m.state == JOIN && c.rank == 0 ==> ParentNone in m.events)
    && (m.state == JOIN && c.rank > 0 && m.parentValid && Ord(m.parentState) >= Ord(QUORUM) ==> ParentReady in m.events)
    && (m.state == INIT && !c.rc1 ==> Rc1None in m.events)
    && (m.state == QUORUM && c.rank > 0 && m.parentValid && m.parentState == RUN ==> QuorumFull in m.events)
  }

  lemma EntryGoes(c: Config, m: Machine, env: Env)
    requires !env.startFails && !env.joinFails && !m.parentError && Ord(m.state) <= Ord(RUN)
    requires m.parentValid ==> Ord(m.parentState) <= Ord(RUN)
    ensures AllSmooth(EntryEvents(c, m, env))
    ensures Going(c, m.(events := EntryEvents(c, m, env)))
  {
  }

  lemma MoreEvents(c: Config, m: Machine, more: seq<Event>)
    requires Going(c, m) && AllSmooth(more)
    ensures Going(c, m.(events := m.events + more)) && Going(c, m.(events := more + m.events))
  {
  }

  lemma SmoothIsLow(s: State, e: Event)
    requires Ord(s) <= Ord(RUN) && Smooth(e)
    ensures Ord(NextState(s, e)) <= Ord(RUN)
  {
  }

  lemma TailGoes(c: Config, m: Machine)
    requires Going(c, m) && m.events != [] && NextState(m.state, m.events[0]) == m.state
    ensures Going(c, m.(events := m.events[1..]))
  {
    assert m.events == [m.events[0]] + m.events[1..];
  }

  lemma DispatchGoes(c: Config, m: Machine, env: Env)
    requires Going(c, m) && !env.startFails && !env.joinFails
    ensures Going(c, Lifecycle.Dispatch(c, m, env))
  {
    if m.events != [] {
      var rest, next := m.events[1..], NextState(m.state, m.events[0]);
      if next == m.state {
        TailGoes(c, m);
      } else {
        SmoothIsLow(m.state, m.events[0]);
        var m1 := m.(events := rest, state := next, past := m.past + [next]);
        EntryGoes(c, m1, env);
        MoreEvents(c, m1.(events := EntryEvents(c, m1, env)), rest);
      }
    }
  }

  lemma UpdateGoes(c: Config, m: Machine, s: State)
    requires Going(c, m) && Ord(s) <= Ord(RUN)
    ensures Going(c, ParentUpdate(m, s))
  {
  }

  /* ---- one broker ---- */

  /** A broker that has entered QUORUM has asked to join the group, and is joined once it was served. */
  ghost predicate Asked(b: Broker)
  {
    && (QUORUM in b.m.past <==> b.joining || b.group.joined)
    && !(b.joining && b.group.joined)
    && (b.m.state == QUORUM || b.m.state == RUN ==> QUORUM in b.m.past)
  }

  /** What a listening broker has heard, or will, ends with the state its parent is in. */
  ghost predicate UpToDate(b: Broker, p: Machine)
  {
    && !b.sub.Closed?
    && (b.sub.Open? ==> Heard(b) != [] && Heard(b)[|Heard(b)| - 1] == p.state)
    && (forall i :: 0 <= i < |b.heard| ==> Ord(b.heard[i]) <= Ord(RUN))
  }

  /** Rank 0 has been told of the present members, or will be; and acts on being told of a quorum. */
  ghost predicate Counted(c: Config, b: Broker)
  {
    if b.reports != [] then b.reports[|b.reports| - 1] == b.group.members
    else 0 in b.group.members && |b.group.members| >= c.quorumSize && b.m.state == QUORUM ==> QuorumFull in b.m.events
  }

  lemma HearIsUpToDate(b: Broker, p: Machine)
    requires UpToDate(b, p) && b.heard != []
    ensures UpToDate(AfterHear(b), p)
  {
    var h, h1 := Heard(b), Heard(AfterHear(b));
    assert h1 == if b.m.parentValid then h[1..] else h;
  }

  lemma SubscribedIsUpToDate(b: Broker, p: Machine)
    requires b.sub.NotYet? && UpToDate(b, p) && Ord(p.state) <= Ord(RUN)
    ensures UpToDate(AfterSubscribe(b, p.state), p)
  {
    assert Heard(AfterSubscribe(b, p.state)) == Heard(b) + [p.state];
  }

  lemma AnnouncedIsUpToDate(b: Broker, p: Machine, p1: Machine)
    requires UpToDate(b, p) && Ord(p1.state) <= Ord(RUN)
    ensures UpToDate(Announce(b, p1.state), p1)
  {
    assert Heard(b.(heard := b.heard + [p1.state])) == Heard(b) + [p1.state];
  }

  lemma DispatchAsks(c: Config, b: Broker, env: Env)
    requires Asked(b) && Steady(b.m) && !env.joinFails
    ensures Asked(DispatchOne(c, b, env))
  {
    if b.m.events != [] {
      var next := NextState(b.m.state, b.m.events[0]);
      if next == QUORUM && b.m.state != QUORUM {
        assert QUORUM !in b.m.past;
      }
    }
  }

  /** Rank 0 is not among the members before it has entered QUORUM, so that no report of a quorum that it is
      part of comes too early. */
  lemma DispatchCounts(c: Config, b: Broker, env: Env)
    requires Counted(c, b) && Steady(b.m) && (0 in b.group.members ==> QUORUM in b.m.past)
    ensures Counted(c, DispatchOne(c, b, env))
  {
    if b.m.events != [] {
      assert b.m.events == [b.m.events[0]] + b.m.events[1..];
      var next := NextState(b.m.state, b.m.events[0]);
      if next == QUORUM && b.m.state != QUORUM {
        assert QUORUM !in b.m.past;
      }
    }
  }

  lemma ReportCounts(c: Config, b: Broker)
    requires Counted(c, b) && b.reports != []
    ensures Counted(c, AfterReport(c, b))
  {
  }

  lemma FlushedIsFine(c: Config, b: Broker, r: int, p: Machine)
    requires Asked(b) && (r > 0 ==> UpToDate(b, p))
    ensures Asked(AfterFlush(b, r)) && (r > 0 ==> UpToDate(AfterFlush(b, r), p)) && (r == 0 ==> Counted(c, AfterFlush(b, r)))
    ensures AfterFlush(b, r).m == b.m && AfterFlush(b, r).group == GroupTree.FlushNode(b.group, r)
  {
    assert Heard(AfterFlush(b, r)) == Heard(b);
  }

  /* ---- the whole instance ---- */

  function Nodes(g: Instance): (net: seq<GroupTree.Node>)
    ensures |net| == |g.b|
    ensures forall r :: 0 <= r < |g.b| ==> net[r] == g.b[r].group
  {
    seq(|g.b|, r requires 0 <= r < |g.b| => g.b[r].group)
  }

  ghost predicate Fine(g: Instance, r: int)
    requires WellFormed(g) && IsRank(g.parent, r)
  {
    && Going(g.config[r], g.b[r].m)
    && Asked(g.b[r])
    && (r > 0 ==> UpToDate(g.b[r], g.b[g.parent[r]].m))
    && (r == 0 ==> Counted(g.config[r], g.b[r]))
  }

  ghost predicate Flowing(g: Instance)
  {
    && Inv(g)
    && (forall r :: 0 <= r < |g.b| ==> Fine(g, r))
    && GroupTree.Inv(g.parent, Nodes(g))
  }

  /** Broker `r` becomes `b1`, in the same state as before. */
  lemma PutFlows(g: Instance, r: int, b1: Broker)
    requires Flowing(g) && IsRank(g.parent, r) && Inv(Put(g, r, b1))
    requires b1.m.state == g.b[r].m.state && Going(g.config[r], b1.m) && Asked(b1)
    requires r > 0 ==> UpToDate(b1, g.b[g.parent[r]].m)
    requires r == 0 ==> Counted(g.config[r], b1)
    requires GroupTree.Inv(g.parent, Nodes(g)[r := b1.group])
    ensures Flowing(Put(g, r, b1))
  {
    var g1 := Put(g, r, b1);
    NotOwnParent(g.parent, r);
    assert Nodes(g1) == Nodes(g)[r := b1.group];
    forall q | 0 <= q < |g.b|
      ensures Fine(g1, q)
    {
      assert Fine(g, q);
    }
  }

  /** The same when the group is not involved. */
  lemma PutFlowsAlone(g: Instance, r: int, b1: Broker)
    requires Flowing(g) && IsRank(g.parent, r) && Inv(Put(g, r, b1)) && b1.group == g.b[r].group
    requires b1.m.state == g.b[r].m.state && Going(g.config[r], b1.m) && Asked(b1)
    requires r > 0 ==> UpToDate(b1, g.b[g.parent[r]].m)
    requires r == 0 ==> Counted(g.config[r], b1)
    ensures Flowing(Put(g, r, b1))
  {
    assert Nodes(g)[r := b1.group] == Nodes(g);
    PutFlows(g, r, b1);
  }

  lemma PostFlows(g: Instance, r: int, e: Event)
    requires Flowing(g) && IsRank(g.parent, r) && Smooth(e) && External(e)
    ensures Flowing(Next(g, PostExternal(r, e)))
  {
    InvStep(g, PostExternal(r, e));
    assert Fine(g, r);
    var b := g.b[r];
    MoreEvents(g.config[r], b.m, [e]);
    assert Heard(b.(m := PostEvent(b.m, e))) == Heard(b);
    PutFlowsAlone(g, r, b.(m := PostEvent(b.m, e)));
  }

  lemma SubscribeFlows(g: Instance, r: int)
    requires Flowing(g) && 0 < r < |g.b| && g.b[r].sub.NotYet?
    ensures Flowing(Next(g, Subscribe(r)))
  {
    InvStep(g, Subscribe(r));
    var p := g.parent[r];
    assert Fine(g, r) && Fine(g, p);
    SubscribedIsUpToDate(g.b[r], g.b[p].m);
    PutFlowsAlone(g, r, AfterSubscribe(g.b[r], g.b[p].m.state));
  }

  lemma HearFlows(g: Instance, r: int)
    requires Flowing(g) && 0 < r < |g.b| && g.b[r].heard != []
    ensures Flowing(Next(g, HearParent(r)))
  {
    InvStep(g, HearParent(r));
    assert Fine(g, r);
    UpdateGoes(g.config[r], g.b[r].m, g.b[r].heard[0]);
    HearIsUpToDate(g.b[r], g.b[g.parent[r]].m);
    PutFlowsAlone(g, r, AfterHear(g.b[r]));
  }

  lemma JoinFlows(g: Instance, r: int)
    requires Flowing(g) && IsRank(g.parent, r) && g.b[r].joining
    ensures Flowing(Next(g, ServeJoin(r)))
  {
    InvStep(g, ServeJoin(r));
    assert Fine(g, r);
    var b1 := AfterJoin(g.b[r], r);
    GroupTree.InvStep(g.parent, Nodes(g), GroupTree.Join(r));
    assert Heard(b1) == Heard(g.b[r]);
    PutFlows(g, r, b1);
  }

  lemma FlushFlows(g: Instance, r: int)
    requires Flowing(g) && IsRank(g.parent, r)
    ensures Flowing(Next(g, GroupFlush(r)))
  {
    InvStep(g, GroupFlush(r));
    assert Fine(g, r);
    FlushedIsFine(g.config[r], g.b[r], r, if r > 0 then g.b[g.parent[r]].m else g.b[r].m);
    GroupTree.FlushStep(g.parent, Nodes(g), r);
    PutFlows(g, r, AfterFlush(g.b[r], r));
  }

  lemma DeliverFlows(g: Instance, r: int)
    requires Flowing(g) && 0 < r < |g.b| && g.b[r].group.up != []
    ensures Flowing(Next(g, GroupDeliver(r)))
  {
    InvStep(g, GroupDeliver(r));
    var p := g.parent[r];
    NotOwnParent(g.parent, r);
    GroupTree.InvStep(g.parent, Nodes(g), GroupTree.Deliver(r));
    var g1 := Next(g, GroupDeliver(r));
    assert Nodes(g1) == GroupTree.Next(g.parent, Nodes(g), GroupTree.Deliver(r));
    forall q | 0 <= q < |g.b|
      ensures Fine(g1, q)
    {
      assert Fine(g, q);
      DeliveredIsFine(g, r, q);
    }
  }

  lemma DeliveredIsFine(g: Instance, r: int, q: int)
    requires WellFormed(g) && 0 < r < |g.b| && g.b[r].group.up != [] && IsRank(g.parent, q) && Fine(g, q)
    ensures Fine(Next(g, GroupDeliver(r)), q)
  {
    var b, b1 := g.b[q], Next(g, GroupDeliver(r)).b[q];
    assert b1 == b.(group := b1.group) && b1.group == b.group.(batch := b1.group.batch, up := b1.group.up);
    assert Heard(b1) == Heard(b);
  }

  lemma RootFlows(g: Instance, s: Step)
    requires Flowing(g) && (s.Watch? || (s.HearOnline? && g.b[0].reports != []))
    ensures Flowing(Next(g, s))
  {
    InvStep(g, s);
    assert Fine(g, 0);
    var b := g.b[0];
    if s.Watch? {
      PutFlowsAlone(g, 0, b.(reports := b.reports + [b.group.members]));
    } else {
      ReportCounts(g.config[0], b);
      MoreEvents(g.config[0], b.m, [QuorumFull]);
      PutFlowsAlone(g, 0, AfterReport(g.config[0], b));
    }
  }

  lemma DispatchedIsFine(g: Instance, r: int, env: Env)
    requires Flowing(g) && IsRank(g.parent, r) && !env.startFails && !env.joinFails
    ensures var b1 := DispatchOne(g.config[r], g.b[r], env);
      && Going(g.config[r], b1.m) && Asked(b1)
      && (r > 0 ==> UpToDate(b1, g.b[g.parent[r]].m)) && (r == 0 ==> Counted(g.config[r], b1))
  {
    var c, b := g.config[r], g.b[r];
    assert Fine(g, r) && Good(g, r);
    DispatchGoes(c, b.m, env);
    DispatchAsks(c, b, env);
    assert Heard(DispatchOne(c, b, env)) == Heard(b);
    if r == 0 {
      assert 0 in b.group.members ==> 0 in InQuorum(g);
      DispatchCounts(c, b, env);
    }
  }

  lemma DispatchFlows(g: Instance, r: int, env: Env)
    requires Flowing(g) && IsRank(g.parent, r) && !env.startFails && !env.joinFails
    ensures Flowing(Next(g, Dispatch(r, env)))
  {
    InvStep(g, Dispatch(r, env));
    DispatchedIsFine(g, r, env);
    var b1 := DispatchOne(g.config[r], g.b[r], env);
    var g1 := Next(g, Dispatch(r, env));
    NotOwnParent(g.parent, r);
    assert Nodes(g1) == Nodes(g);
    forall q | 0 <= q < |g.b|
      ensures Fine(g1, q)
    {
      assert Fine(g, q);
      if q != r && g.parent[q] == r && b1.m.state != g.b[r].m.state {
        AnnouncedIsUpToDate(g.b[q], g.b[r].m, b1.m);
      }
    }
  }

  lemma StepFlows(g: Instance, s: Step)
    requires Flowing(g) && SmoothStep(s)
    ensures Flowing(Next(g, s))
  {
    if s.Watch? || s.HearOnline? {
      if s.Watch? || g.b[0].reports != [] {
        RootFlows(g, s);
      }
    } else if IsRank(g.parent, s.r) {
      match s
      case PostExternal(r, e) => if External(e) { PostFlows(g, r, e); }
      case Subscribe(r) => if r != 0 && g.b[r].sub.NotYet? { SubscribeFlows(g, r); }
      case HearParent(r) => if r != 0 && g.b[r].heard != [] { HearFlows(g, r); }
      case Dispatch(r, env) => DispatchFlows(g, r, env);
      case ServeJoin(r) => if g.b[r].joining { JoinFlows(g, r); }
      case GroupFlush(r) => FlushFlows(g, r);
      case GroupDeliver(r) => if r != 0 && g.b[r].group.up != [] { DeliverFlows(g, r); }
    }
  }

  lemma BeginFlows(parent: seq<int>, config: seq<Config>)
    requires WellFormed(Begin(parent, config))
    ensures Flowing(Begin(parent, config))
  {
    var g := Begin(parent, config);
    BeginIsGood(parent, config);
    GroupTree.AnInitialNet(parent);
    assert Nodes(g) == GroupTree.Start(|parent|);
    forall r | 0 <= r < |g.b|
      ensures Fine(g, r)
    {
      assert g.b[r] == Fresh() && Heard(Fresh()) == [];
    }
  }

  lemma {:induction false} RunFlows(parent: seq<int>, config: seq<Config>, steps: seq<Step>)
    requires WellFormed(Begin(parent, config)) && SmoothRun(steps)
    ensures Flowing(Run(Begin(parent, config), steps))
    decreases |steps|
  {
    if steps == [] {
      BeginFlows(parent, config);
    } else {
      var k := |steps| - 1;
      RunFlows(parent, config, steps[..k]);
      StepFlows(Run(Begin(parent, config), steps[..k]), steps[k]);
    }
  }

  /* ---- when nothing is left to be done ---- */

  /** Every broker has been started, its rc1 script has ended, its queue is empty, its parent has its monitor
      request, and no message is on its way to it. */
  ghost predicate Idle(b: Broker, r: int)
  {
    && b.m.state != NONE && b.m.state != INIT && b.m.events == []
    && (r > 0 ==> b.sub.Open?) && b.heard == []
    && !b.joining && b.group.batch == [] && b.group.up == [] && b.reports == []
  }

  ghost predicate AllIdle(g: Instance)
  {
    forall r :: 0 <= r < |g.b| ==> Idle(g.b[r], r)
  }

  lemma IdleHasHeard(g: Instance, r: int)
    requires Flowing(g) && AllIdle(g) && 0 < r < |g.b|
    ensures g.b[r].m.parentValid && g.b[r].m.parentState == g.b[g.parent[r]].m.state
  {
    assert Fine(g, r) && Idle(g.b[r], r);
    assert Heard(g.b[r]) == if g.b[r].m.parentValid then [g.b[r].m.parentState] else [];
  }

  lemma {:induction false} AllPastJoin(g: Instance, r: int)
    requires Flowing(g) && AllIdle(g) && IsRank(g.parent, r)
    ensures g.b[r].m.state == QUORUM || g.b[r].m.state == RUN
    ensures QUORUM in g.b[r].m.past && g.b[r].group.joined
    decreases Level(g.parent, r)
  {
    assert Fine(g, r) && Idle(g.b[r], r) && Good(g, r);
    if r > 0 {
      AllPastJoin(g, g.parent[r]);
      IdleHasHeard(g, r);
    }
  }

  lemma RootKnowsAll(g: Instance)
    requires Flowing(g) && AllIdle(g)
    ensures g.b[0].group.members == RanksBelow(|g.b|)
  {
    assert GroupTree.Quiet(Nodes(g)) by {
      assert forall r :: 0 <= r < |g.b| ==> Idle(g.b[r], r);
    }
    assert GroupTree.Scoped(g.parent, Nodes(g), 0);
    forall r | 0 <= r < |g.b|
      ensures r in g.b[0].group.members
    {
      AllPastJoin(g, r);
      EveryRankIsUnderRoot(g.parent, r);
      GroupTree.AncestorsAgree(g.parent, Nodes(g), r, 0);
    }
  }

  function RanksBelow(n: nat): (ranks: set<int>)
    ensures forall r :: r in ranks <==> 0 <= r < n
    ensures |ranks| == n
  {
    if n == 0 then {} else RanksBelow(n - 1) + {n - 1}
  }

  lemma {:induction false} AllRun(g: Instance, r: int)
    requires Flowing(g) && AllIdle(g) && IsRank(g.parent, r) && g.config[0].quorumSize <= |g.b|
    ensures g.b[r].m.state == RUN
    decreases Level(g.parent, r)
  {
    AllPastJoin(g, r);
    assert Fine(g, r) && Idle(g.b[r], r);
    if r == 0 {
      RootKnowsAll(g);
    } else {
      AllRun(g, g.parent[r]);
      IdleHasHeard(g, r);
    }
  }

  /** In every run of every tree in which nothing fails, with any interleaving: once nothing is left to be done
      or delivered, every broker is in RUN, if the quorum asked for is not more than there are brokers. */
  lemma StartUpDoesNotStall(parent: seq<int>, config: seq<Config>, steps: seq<Step>, r: int)
    requires WellFormed(Begin(parent, config)) && SmoothRun(steps) && IsRank(parent, r)
    requires AllIdle(Run(Begin(parent, config), steps)) && config[0].quorumSize <= |parent|
    ensures Run(Begin(parent, config), steps).b[r].m.state == RUN
  {
    RunFlows(parent, config, steps);
    AllRun(Run(Begin(parent, config), steps), r);
  }
}
