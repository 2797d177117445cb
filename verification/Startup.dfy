/** Start-up of the whole instance: every broker runs the life cycle of module Lifecycle, hears its
    parent's states through a monitor stream, and joins the group of online brokers on entering
    QUORUM; rank 0 leaves QUORUM when that group is large enough. */
module Startup {
  import opened Tree
  import opened Lifecycle
  import Monitoring
  import opened Groups
  import GroupTree

  /** Whether the parent has received this broker's monitor request, and is still answering it. */
  datatype Sub = NotYet | Open | Closed

  /** One broker.  `heard` is the states its parent has sent and it has not yet received; `joining`
      is a join request on its way to the groups service; `reports` is the membership reports on
      their way to rank 0's state machine. */
  datatype Broker = Broker(
    m: Machine,
    heard: seq<State>,
    sub: Sub,
    joining: bool,
    group: GroupTree.Node,
    reports: seq<set<int>>)

  datatype Instance = Instance(parent: seq<int>, config: seq<Config>, b: seq<Broker>)

  ghost predicate WellFormed(g: Instance)
  {
    && IsTree(g.parent) && |g.config| == |g.b| == |g.parent|
    && forall r :: 0 <= r < |g.config| ==> g.config[r].rank == r
  }

  /** What a child monitoring up to SHUTDOWN is sent when its parent is in state `s`. */
  function Told(s: State): seq<State>
  {
    if Ord(s) <= Ord(SHUTDOWN) then [s] else []
  }

  function SubAfter(s: State): Sub
  {
    if Ord(s) < Ord(SHUTDOWN) then Open else Closed
  }

  function StatesIn(rs: seq<Monitoring.Reply>): seq<State>
  {
    if rs == [] then []
    else StatesIn(rs[..|rs| - 1]) + (if rs[|rs| - 1].StateIs? then [rs[|rs| - 1].state] else [])
  }

  /** This is what the monitor service does for a streaming request that ends at SHUTDOWN. */
  lemma ToldIsMonitorService(id: nat, s: State)
    ensures StatesIn(Monitoring.MonitorReplies(Monitoring.MonitorRequest(id, true, Ord(SHUTDOWN)), s)) == Told(s)
    ensures Monitoring.MonitorStays(Monitoring.MonitorRequest(id, true, Ord(SHUTDOWN)), s) <==> SubAfter(s) == Open
  {
    var rs := Monitoring.MonitorReplies(Monitoring.MonitorRequest(id, true, Ord(SHUTDOWN)), s);
    if |rs| == 2 {
      assert rs[..1] == [rs[0]];
    }
    assert StatesIn([]) == [];
  }

  function Fresh(): Broker
  {
    Broker(Initial(), [], NotYet, false, GroupTree.Node({}, [], [], false), [])
  }

  function Begin(parent: seq<int>, config: seq<Config>): Instance
  {
    Instance(parent, config, seq(|parent|, _ => Fresh()))
  }

  /** Events that parts of the broker other than the parent checks and the online group may post. */
  predicate External(e: Event)
  {
    !e.ParentReady? && !e.ParentNone? && !e.QuorumFull?
  }

  datatype Step =
    | PostExternal(r: int, event: Event)
    | Subscribe(r: int)                      // the parent receives r's monitor request
    | HearParent(r: int)                     // r receives the next state of its parent
    | LoseParent(r: int)                     // the monitor stream ends in an error
    | Dispatch(r: int, env: Env)             // r handles its next event
    | ServeJoin(r: int)                      // r's groups service receives the join request
    | GroupLeave(r: int, ranks: set<int>)    // a leave, on request or for a lost subtree
    | GroupFlush(r: int)
    | GroupDeliver(r: int)                   // r's parent receives a list of updates from r
    | GroupDrop(r: int)                      // the link from r to its parent loses what is in flight
    | Watch                                  // rank 0's first membership report
    | HearOnline                             // rank 0 receives a membership report

  /** A parent that has just entered `s` tells a child that is listening. */
  function Announce(b: Broker, s: State): Broker
  {
    if b.sub.Open? then b.(heard := b.heard + Told(s), sub := SubAfter(s)) else b
  }

  function DispatchOne(c: Config, b: Broker, env: Env): Broker
  {
    var m := Lifecycle.Dispatch(c, b.m, env);
    b.(m := m, joining := b.joining || (m.state != b.m.state && m.state == QUORUM && !env.joinFails))
  }

  /** The instance with broker `r` replaced. */
  function Put(g: Instance, r: int, b: Broker): (g1: Instance)
    requires 0 <= r < |g.b|
    ensures g1.parent == g.parent && g1.config == g.config && |g1.b| == |g.b|
  {
    g.(b := g.b[r := b])
  }

  function AfterSubscribe(b: Broker, s: State): Broker
  {
    b.(heard := b.heard + Told(s), sub := SubAfter(s))
  }

  function AfterHear(b: Broker): Broker
    requires b.heard != []
  {
    b.(m := ParentUpdate(b.m, b.heard[0]), heard := b.heard[1..])
  }

  function AfterLose(b: Broker): Broker
  {
    b.(m := ParentLost(b.m), heard := [], sub := Closed)
  }

  function AfterJoin(b: Broker, r: int): Broker
  {
    if b.group.joined then b.(joining := false, m := PostEvent(b.m, QuorumFail))
    else b.(joining := false, group := GroupTree.JoinNode(b.group, r))
  }

  function AfterLeave(b: Broker, r: int, ranks: set<int>): Broker
  {
    var n := b.group;
    b.(group := n.(batch := n.batch + [Update.Update(ranks, false)], joined := n.joined && r !in ranks))
  }

  function AfterFlush(b: Broker, r: int): Broker
  {
    var n := GroupTree.FlushNode(b.group, r);
    b.(group := n, reports := if r == 0 then b.reports + [n.members] else b.reports)
  }

  function AfterReceive(b: Broker, us: seq<Update>): Broker
  {
    b.(group := b.group.(batch := b.group.batch + us))
  }

  function AfterSent(b: Broker): Broker
    requires b.group.up != []
  {
    b.(group := b.group.(up := b.group.up[1..]))
  }

  function AfterReport(c: Config, b: Broker): Broker
    requires b.reports != []
  {
    b.(m := OnlineReport(c, b.m, |b.reports[0]|), reports := b.reports[1..])
  }

  /** Broker `r` has become `b1`; if its state changed, its listening children are told. */
  function AfterDispatch(g: Instance, r: int, b1: Broker): (g1: Instance)
    requires 0 <= r < |g.b| == |g.parent|
    ensures g1.parent == g.parent && g1.config == g.config && |g1.b| == |g.b|
  {
    if b1.m.state == g.b[r].m.state then Put(g, r, b1)
    else g.(b := seq(|g.b|, i requires 0 <= i < |g.b| =>
                if i == r then b1 else if g.parent[i] == r then Announce(g.b[i], b1.m.state) else g.b[i]))
  }

  function Next(g: Instance, s: Step): (g1: Instance)
    requires WellFormed(g)
    ensures WellFormed(g1) && g1.parent == g.parent && g1.config == g.config
  {
    if !s.Watch? && !s.HearOnline? && !IsRank(g.parent, s.r) then g else
    match s
    case PostExternal(r, e) =>
      if External(e) then Put(g, r, g.b[r].(m := PostEvent(g.b[r].m, e))) else g
    case Subscribe(r) =>
      if r == 0 || !g.b[r].sub.NotYet? then g else Put(g, r, AfterSubscribe(g.b[r], g.b[g.parent[r]].m.state))
    case HearParent(r) =>
      if r == 0 || g.b[r].heard == [] then g else Put(g, r, AfterHear(g.b[r]))
    case LoseParent(r) =>
      if r == 0 then g else Put(g, r, AfterLose(g.b[r]))
    case Dispatch(r, env) => AfterDispatch(g, r, DispatchOne(g.config[r], g.b[r], env))
    case ServeJoin(r) => if g.b[r].joining then Put(g, r, AfterJoin(g.b[r], r)) else g
    case GroupLeave(r, ranks) => Put(g, r, AfterLeave(g.b[r], r, ranks))
    case GroupFlush(r) => Put(g, r, AfterFlush(g.b[r], r))
    case GroupDeliver(r) =>
      if r == 0 || g.b[r].group.up == [] then g else
        var p := g.parent[r];
        Put(Put(g, p, AfterReceive(g.b[p], g.b[r].group.up[0])), r, AfterSent(g.b[r]))
    case GroupDrop(r) => Put(g, r, g.b[r].(group := g.b[r].group.(up := [])))
    case Watch => Put(g, 0, g.b[0].(reports := g.b[0].reports + [g.b[0].group.members]))
    case HearOnline => if g.b[0].reports == [] then g else Put(g, 0, AfterReport(g.config[0], g.b[0]))
  }

  function Run(g: Instance, steps: seq<Step>): (g1: Instance)
    requires WellFormed(g)
    ensures WellFormed(g1) && g1.parent == g.parent && g1.config == g.config
    decreases |steps|
  {
    if steps == [] then g else Next(Run(g, steps[..|steps| - 1]), steps[|steps| - 1])
  }

  function Entered(g: Instance, r: int, s: State): bool
  {
    0 <= r < |g.b| && s in g.b[r].m.past
  }

  /** The ranks that have entered QUORUM. */
  function InQuorum(g: Instance): set<int>
  {
    set r | 0 <= r < |g.b| && Entered(g, r, QUORUM)
  }

  /* ---- invariants of one broker ---- */

  ghost predicate Steady(m: Machine)
  {
    PastIsSound(m) && (QUORUM in m.past ==> INIT in m.past)
  }

  function Heard(b: Broker): seq<State>
  {
    (if b.m.parentValid then [b.m.parentState] else []) + b.heard
  }

  /** The parent states received and in flight rise strictly and were all entered by the parent. */
  ghost predicate Follows(b: Broker, p: Machine)
  {
    && Rising(Heard(b))
    && (forall i :: 0 <= i < |Heard(b)| ==>
          Ord(Heard(b)[i]) <= Ord(p.state) && (Heard(b)[i] == NONE || Heard(b)[i] in p.past))
    && (b.sub.NotYet? ==> Heard(b) == [])
  }

  /** A broker with a parent gets past JOIN only once it has seen the parent in QUORUM or beyond. */
  ghost predicate WaitsForParent(m: Machine)
  {
    && ParentNone !in m.events
    && (ParentReady in m.events || INIT in m.past ==> m.parentValid && Ord(m.parentState) >= Ord(QUORUM))
  }

  ghost predicate MayRun(m: Machine, allowed: bool)
  {
    QuorumFull in m.events || RUN in m.past ==> allowed
  }

  /** Every rank that a broker's group data lists as joined has entered QUORUM. */
  ghost predicate JoinsOnly(us: seq<Update>, q: set<int>)
  {
    forall i :: 0 <= i < |us| && us[i].Update? && us[i].join ==> us[i].ranks <= q
  }

  ghost predicate Traced(b: Broker, r: int, q: set<int>)
  {
    && (b.joining ==> r in q)
    && b.group.members <= q
    && JoinsOnly(b.group.batch, q)
    && (forall k :: 0 <= k < |b.group.up| ==> JoinsOnly(b.group.up[k], q))
    && (forall k :: 0 <= k < |b.reports| ==> b.reports[k] <= q)
  }

  ghost predicate Good(g: Instance, r: int)
    requires WellFormed(g) && IsRank(g.parent, r)
  {
    && Steady(g.b[r].m)
    && Traced(g.b[r], r, InQuorum(g))
    && (r > 0 ==>
          && Follows(g.b[r], g.b[g.parent[r]].m)
          && WaitsForParent(g.b[r].m)
          && MayRun(g.b[r].m, RUN in g.b[g.parent[r]].m.past))
    && (r == 0 ==> MayRun(g.b[r].m, |InQuorum(g)| >= g.config[0].quorumSize))
  }

  ghost predicate Inv(g: Instance)
  {
    WellFormed(g) && forall r :: 0 <= r < |g.b| ==> Good(g, r)
  }

  /* ---- one machine keeps its part ---- */

  lemma DispatchSteady(c: Config, m: Machine, env: Env)
    requires Steady(m)
    ensures Steady(Lifecycle.Dispatch(c, m, env))
    ensures m.past <= Lifecycle.Dispatch(c, m, env).past
    ensures Ord(m.state) <= Ord(Lifecycle.Dispatch(c, m, env).state)
  {
    if m.events != [] {
      var next := NextState(m.state, m.events[0]);
      if next != m.state {
        EnterSound(m, next);
        if next == QUORUM {
          assert INIT in m.past;
        }
      }
    }
  }

  /** The states a broker has heard of: the latest received was entered by the parent. */
  lemma ReceivedWasEntered(b: Broker, p: Machine)
    requires Follows(b, p) && b.m.parentValid && b.m.parentState != NONE
    ensures b.m.parentState in p.past
  {
    assert Heard(b)[0] == b.m.parentState;
  }

  /** What entry actions can say about the parent and the quorum. */
  lemma EntryMentions(c: Config, m: Machine, env: Env)
    ensures ParentNone in EntryEvents(c, m, env) ==> c.rank == 0
    ensures ParentReady in EntryEvents(c, m, env) ==> m.parentValid && Ord(m.parentState) >= Ord(QUORUM)
    ensures QuorumFull in EntryEvents(c, m, env) ==>
      c.rank > 0 && m.state == QUORUM && m.parentValid && m.parentState in [INIT, RUN]
  {
  }

  lemma DispatchWaits(c: Config, m: Machine, env: Env)
    requires c.rank > 0 && Steady(m) && WaitsForParent(m)
    ensures WaitsForParent(Lifecycle.Dispatch(c, m, env))
  {
    if m.events != [] {
      assert m.events[0] in m.events;
      var next := NextState(m.state, m.events[0]);
      if next != m.state {
        EntryMentions(c, m.(events := m.events[1..], state := next, past := m.past + [next]), env);
      }
    }
  }

  lemma DispatchMayRun(c: Config, b: Broker, p: Machine, env: Env)
    requires c.rank > 0 && Steady(b.m) && WaitsForParent(b.m) && Follows(b, p) && MayRun(b.m, RUN in p.past)
    ensures MayRun(Lifecycle.Dispatch(c, b.m, env), RUN in p.past)
  {
    var m := b.m;
    if m.events != [] {
      assert m.events[0] in m.events;
      var next := NextState(m.state, m.events[0]);
      if next != m.state {
        EntryMentions(c, m.(events := m.events[1..], state := next, past := m.past + [next]), env);
        if next == QUORUM {
          assert INIT in m.past;
          ReceivedWasEntered(b, p);
        }
      }
    }
  }

  lemma RootDispatchMayRun(c: Config, m: Machine, env: Env, allowed: bool)
    requires c.rank == 0 && MayRun(m, allowed)
    ensures MayRun(Lifecycle.Dispatch(c, m, env), allowed)
  {
    if m.events != [] {
      assert m.events[0] in m.events;
      var next := NextState(m.state, m.events[0]);
      if next != m.state {
        EntryMentions(c, m.(events := m.events[1..], state := next, past := m.past + [next]), env);
      }
    }
  }

  /** The next state in flight is later than the one recorded, and was entered by the parent. */
  lemma NewsIsLater(b: Broker, p: Machine)
    requires b.heard != [] && Follows(b, p)
    ensures b.m.parentValid ==> Ord(b.m.parentState) < Ord(b.heard[0])
    ensures b.heard[0] == NONE || b.heard[0] in p.past
  {
    var h := Heard(b);
    if b.m.parentValid {
      assert h[0] == b.m.parentState && h[1] == b.heard[0];
    } else {
      assert h[0] == b.heard[0];
    }
  }

  lemma HearFollows(b: Broker, p: Machine)
    requires b.heard != [] && Follows(b, p)
    ensures Follows(b.(m := ParentUpdate(b.m, b.heard[0]), heard := b.heard[1..]), p)
  {
    var h, b1 := Heard(b), b.(m := ParentUpdate(b.m, b.heard[0]), heard := b.heard[1..]);
    assert Heard(b1) == if b.m.parentValid then h[1..] else h;
  }

  lemma HearKeeps(b: Broker, p: Machine)
    requires b.heard != [] && Steady(b.m) && WaitsForParent(b.m) && Follows(b, p) && MayRun(b.m, RUN in p.past)
    ensures Steady(ParentUpdate(b.m, b.heard[0]))
    ensures WaitsForParent(ParentUpdate(b.m, b.heard[0]))
    ensures MayRun(ParentUpdate(b.m, b.heard[0]), RUN in p.past)
  {
    var m := b.m;
    NewsIsLater(b, p);
    if m.state == QUORUM {
      assert QUORUM in m.past;
    }
  }

  lemma AnnounceKeeps(b: Broker, p: Machine, p1: Machine)
    requires Follows(b, p) && b.sub.Open? && Ord(p.state) < Ord(p1.state)
    requires p.past <= p1.past && p1.state in p1.past
    ensures Follows(Announce(b, p1.state), p1)
  {
    var h, h1 := Heard(b), Heard(Announce(b, p1.state));
    assert h1 == h + Told(p1.state);
    forall i | 0 <= i < |h1|
      ensures Ord(h1[i]) <= Ord(p1.state) && (h1[i] == NONE || h1[i] in p1.past)
    {
      if i < |h| {
        assert h1[i] == h[i];
      }
    }
    forall i, j | 0 <= i < j < |h1|
      ensures Ord(h1[i]) < Ord(h1[j])
    {
      assert h1[i] == h[i];
    }
  }

  /* ---- the whole instance ---- */

  /** Histories only grow. */
  ghost predicate Grew(g: Instance, g1: Instance)
  {
    && g1.parent == g.parent && g1.config == g.config && |g1.b| == |g.b|
    && forall r :: 0 <= r < |g.b| ==> g.b[r].m.past <= g1.b[r].m.past && Ord(g.b[r].m.state) <= Ord(g1.b[r].m.state)
  }

  lemma QuorumGrows(g: Instance, g1: Instance)
    requires Grew(g, g1)
    ensures InQuorum(g) <= InQuorum(g1) && |InQuorum(g)| <= |InQuorum(g1)|
  {
    forall r | r in InQuorum(g)
      ensures r in InQuorum(g1)
    {
      assert g.b[r].m.past <= g1.b[r].m.past;
    }
    assert InQuorum(g1) == InQuorum(g) + (InQuorum(g1) - InQuorum(g));
  }

  lemma FollowsGrowth(b: Broker, p: Machine, p1: Machine)
    requires Follows(b, p) && p.past <= p1.past && Ord(p.state) <= Ord(p1.state)
    ensures Follows(b, p1)
  {
  }

  lemma TracedGrowth(b: Broker, r: int, q: set<int>, q1: set<int>)
    requires Traced(b, r, q) && q <= q1
    ensures Traced(b, r, q1)
  {
  }

  /** A broker that is not itself changed stays good while the others grow. */
  lemma BystanderStaysGood(g: Instance, g1: Instance, r: int)
    requires WellFormed(g) && WellFormed(g1) && Grew(g, g1) && IsRank(g.parent, r)
    requires Good(g, r) && g1.b[r] == g.b[r]
    ensures Good(g1, r)
  {
    QuorumGrows(g, g1);
    TracedGrowth(g.b[r], r, InQuorum(g), InQuorum(g1));
    if r > 0 {
      var p := g.parent[r];
      assert g.b[p].m.past <= g1.b[p].m.past;
      FollowsGrowth(g.b[r], g.b[p].m, g1.b[p].m);
    }
  }

  /** A changed broker's part, when its parent is unchanged. */
  lemma ChangedIsGood(g: Instance, g1: Instance, r: int)
    requires WellFormed(g) && WellFormed(g1) && Grew(g, g1) && IsRank(g.parent, r)
    requires Steady(g1.b[r].m)
    requires Traced(g1.b[r], r, InQuorum(g1))
    requires r > 0 ==> g1.b[g.parent[r]].m == g.b[g.parent[r]].m
    requires r > 0 ==> Follows(g1.b[r], g.b[g.parent[r]].m) && WaitsForParent(g1.b[r].m)
    requires r > 0 ==> MayRun(g1.b[r].m, RUN in g.b[g.parent[r]].m.past)
    requires r == 0 ==> MayRun(g1.b[r].m, |InQuorum(g)| >= g.config[0].quorumSize)
    ensures Good(g1, r)
  {
    QuorumGrows(g, g1);
  }

  /** Broker `r` becomes `b1` without entering a state: it is enough that `b1` fits. */
  ghost predicate Fits(g: Instance, r: int, b1: Broker)
    requires WellFormed(g) && IsRank(g.parent, r)
  {
    && b1.m.past == g.b[r].m.past && b1.m.state == g.b[r].m.state
    && Traced(b1, r, InQuorum(g))
    && (r > 0 ==>
          && Follows(b1, g.b[g.parent[r]].m)
          && WaitsForParent(b1.m)
          && MayRun(b1.m, RUN in g.b[g.parent[r]].m.past))
    && (r == 0 ==> MayRun(b1.m, |InQuorum(g)| >= g.config[0].quorumSize))
  }

  lemma PutKeepsInv(g: Instance, r: int, b1: Broker)
    requires Inv(g) && IsRank(g.parent, r) && Fits(g, r, b1)
    ensures WellFormed(Put(g, r, b1)) && Inv(Put(g, r, b1))
  {
    var g1 := Put(g, r, b1);
    assert Grew(g, g1);
    NotOwnParent(g.parent, r);
    assert Good(g, r);
    ChangedIsGood(g, g1, r) by { TracedGrowth(b1, r, InQuorum(g), InQuorum(g1)) by { QuorumGrows(g, g1); } }
    forall q | 0 <= q < |g.b| && q != r
      ensures Good(g1, q)
    {
      assert Good(g, q);
      BystanderStaysGood(g, g1, q);
    }
  }

  lemma SubscribeFits(g: Instance, r: int)
    requires Inv(g) && 0 < r < |g.b| && g.b[r].sub.NotYet?
    ensures Fits(g, r, AfterSubscribe(g.b[r], g.b[g.parent[r]].m.state))
  {
    var p := g.parent[r];
    assert Good(g, r) && Good(g, p);
    assert Heard(AfterSubscribe(g.b[r], g.b[p].m.state)) == Told(g.b[p].m.state);
  }

  lemma HearFits(g: Instance, r: int)
    requires Inv(g) && 0 < r < |g.b| && g.b[r].heard != []
    ensures Fits(g, r, AfterHear(g.b[r]))
  {
    assert Good(g, r);
    HearKeeps(g.b[r], g.b[g.parent[r]].m);
    HearFollows(g.b[r], g.b[g.parent[r]].m);
  }

  lemma LoseFits(g: Instance, r: int)
    requires Inv(g) && 0 < r < |g.b|
    ensures Fits(g, r, AfterLose(g.b[r]))
  {
    assert Good(g, r);
    assert Heard(AfterLose(g.b[r])) == if g.b[r].m.parentValid then [Heard(g.b[r])[0]] else [];
  }

  lemma JoinsGrow(us: seq<Update>, more: seq<Update>, q: set<int>)
    requires JoinsOnly(us, q) && JoinsOnly(more, q)
    ensures JoinsOnly(us + more, q)
  {
  }

  lemma JoinFits(g: Instance, r: int)
    requires Inv(g) && IsRank(g.parent, r) && g.b[r].joining
    ensures Fits(g, r, AfterJoin(g.b[r], r))
  {
    assert Good(g, r);
    JoinsGrow(g.b[r].group.batch, [Update.Update({r}, true)], InQuorum(g));
    assert Heard(AfterJoin(g.b[r], r)) == Heard(g.b[r]);
  }

  lemma {:induction false} AllRanksJoin(us: seq<Update>, q: set<int>)
    requires JoinsOnly(us, q) && forall i :: 0 <= i < |us| ==> us[i].Update? && us[i].join
    ensures AllRanks(us) <= q
  {
    if us != [] {
      AllRanksJoin(us[..|us| - 1], q);
    }
  }

  lemma {:induction false} AppliedJoins(members: set<int>, us: seq<Update>, q: set<int>)
    requires members <= q && JoinsOnly(us, q)
    ensures ApplyAll(members, us) <= q
  {
    if us != [] {
      AppliedJoins(members, us[..|us| - 1], q);
    }
  }

  lemma ReducedJoins(us: seq<Update>, q: set<int>)
    requires JoinsOnly(us, q)
    ensures JoinsOnly(Reduced(us), q)
  {
    if Mergeable(us) && us[0].join {
      AllRanksJoin(us, q);
    }
  }

  lemma FlushFits(g: Instance, r: int)
    requires Inv(g) && IsRank(g.parent, r)
    ensures Fits(g, r, AfterFlush(g.b[r], r))
  {
    assert Good(g, r);
    var n, q := g.b[r].group, InQuorum(g);
    ReducedJoins(n.batch, q);
    AppliedJoins(n.members, Reduced(n.batch), q);
    var b1 := AfterFlush(g.b[r], r);
    forall k | 0 <= k < |b1.group.up|
      ensures JoinsOnly(b1.group.up[k], q)
    {
      if k < |n.up| {
        assert b1.group.up[k] == n.up[k];
      }
    }
    assert Heard(b1) == Heard(g.b[r]);
  }

  lemma ReceiveFits(g: Instance, r: int, us: seq<Update>)
    requires Inv(g) && IsRank(g.parent, r) && JoinsOnly(us, InQuorum(g))
    ensures Fits(g, r, AfterReceive(g.b[r], us))
  {
    assert Good(g, r);
    JoinsGrow(g.b[r].group.batch, us, InQuorum(g));
    assert Heard(AfterReceive(g.b[r], us)) == Heard(g.b[r]);
  }

  lemma SentFits(g: Instance, r: int)
    requires Inv(g) && IsRank(g.parent, r) && g.b[r].group.up != []
    ensures Fits(g, r, AfterSent(g.b[r]))
  {
    assert Good(g, r);
    assert Heard(AfterSent(g.b[r])) == Heard(g.b[r]);
  }

  lemma ReportFits(g: Instance)
    requires Inv(g) && g.b[0].reports != []
    ensures Fits(g, 0, AfterReport(g.config[0], g.b[0]))
  {
    assert Good(g, 0);
    var seen, q := g.b[0].reports[0], InQuorum(g);
    assert q == seen + (q - seen);
  }

  lemma DispatchKeepsInv(g: Instance, r: int, env: Env)
    requires Inv(g) && IsRank(g.parent, r)
    ensures WellFormed(AfterDispatch(g, r, DispatchOne(g.config[r], g.b[r], env)))
    ensures Inv(AfterDispatch(g, r, DispatchOne(g.config[r], g.b[r], env)))
  {
    var b1 := DispatchOne(g.config[r], g.b[r], env);
    var g1 := AfterDispatch(g, r, b1);
    assert Good(g, r);
    DispatchSteady(g.config[r], g.b[r].m, env);
    assert Grew(g, g1);
    forall q | 0 <= q < |g.b|
      ensures Good(g1, q)
    {
      assert Good(g, q);
      if q == r {
        DispatchedIsGood(g, r, env);
      } else if g1.b[q] == g.b[q] {
        BystanderStaysGood(g, g1, q);
      } else {
        ToldIsGood(g, g1, r, q);
      }
    }
  }

  lemma DispatchedIsGood(g: Instance, r: int, env: Env)
    requires WellFormed(g) && IsRank(g.parent, r) && Good(g, r)
    requires Grew(g, AfterDispatch(g, r, DispatchOne(g.config[r], g.b[r], env)))
    ensures Good(AfterDispatch(g, r, DispatchOne(g.config[r], g.b[r], env)), r)
  {
    var c, b := g.config[r], g.b[r];
    var b1 := DispatchOne(c, b, env);
    var g1 := AfterDispatch(g, r, b1);
    DispatchSteady(c, b.m, env);
    QuorumGrows(g, g1);
    TracedGrowth(b, r, InQuorum(g), InQuorum(g1));
    assert b1.joining && !b.joining ==> QUORUM in g1.b[r].m.past;
    if r > 0 {
      NotOwnParent(g.parent, r);
      LinkIsOneWay(g.parent, r);
      DispatchWaits(c, b.m, env);
      DispatchMayRun(c, b, g.b[g.parent[r]].m, env);
      assert Heard(b1) == Heard(b);
    } else {
      RootDispatchMayRun(c, b.m, env, |InQuorum(g)| >= c.quorumSize);
    }
    ChangedIsGood(g, g1, r);
  }

  /** A child that has just been told its parent's new state. */
  lemma ToldIsGood(g: Instance, g1: Instance, p: int, q: int)
    requires WellFormed(g) && WellFormed(g1) && Grew(g, g1) && IsRank(g.parent, p) && IsRank(g.parent, q)
    requires Good(g, q) && q > 0 && g.parent[q] == p && g.b[q].sub.Open?
    requires g1.b[q] == Announce(g.b[q], g1.b[p].m.state)
    requires Ord(g.b[p].m.state) < Ord(g1.b[p].m.state) && g1.b[p].m.state in g1.b[p].m.past
    ensures Good(g1, q)
  {
    QuorumGrows(g, g1);
    TracedGrowth(g.b[q], q, InQuorum(g), InQuorum(g1));
    AnnounceKeeps(g.b[q], g.b[p].m, g1.b[p].m);
  }

  lemma BeginIsGood(parent: seq<int>, config: seq<Config>)
    requires WellFormed(Begin(parent, config))
    ensures Inv(Begin(parent, config))
  {
    var g := Begin(parent, config);
    forall r | 0 <= r < |g.b|
      ensures Good(g, r)
    {
      assert g.b[r] == Fresh();
      assert Heard(Fresh()) == [];
    }
  }

  lemma DeliverKeepsInv(g: Instance, r: int)
    requires Inv(g) && 0 < r < |g.b| && g.b[r].group.up != []
    ensures Inv(Next(g, GroupDeliver(r)))
  {
    var p := g.parent[r];
    NotOwnParent(g.parent, r);
    assert Good(g, r);
    var us := g.b[r].group.up[0];
    ReceiveFits(g, p, us);
    PutKeepsInv(g, p, AfterReceive(g.b[p], us));
    var g1 := Put(g, p, AfterReceive(g.b[p], us));
    SentFits(g1, r);
    PutKeepsInv(g1, r, AfterSent(g1.b[r]));
  }

  /** Steps on the group's queues that add no join. */
  lemma QuietFits(g: Instance, r: int, b1: Broker)
    requires Inv(g) && IsRank(g.parent, r)
    requires b1.m == g.b[r].m && b1.heard == g.b[r].heard && b1.sub == g.b[r].sub && b1.joining == g.b[r].joining
    requires b1.group.members == g.b[r].group.members && JoinsOnly(b1.group.batch, InQuorum(g))
    requires b1.group.up == [] || b1.group.up == g.b[r].group.up
    requires forall k :: 0 <= k < |b1.reports| ==> b1.reports[k] <= InQuorum(g)
    ensures Fits(g, r, b1)
  {
    assert Good(g, r);
    assert Heard(b1) == Heard(g.b[r]);
  }

  lemma PostFits(g: Instance, r: int, e: Event)
    requires Inv(g) && IsRank(g.parent, r) && External(e)
    ensures Fits(g, r, g.b[r].(m := PostEvent(g.b[r].m, e)))
  {
    assert Good(g, r);
    assert Heard(g.b[r].(m := PostEvent(g.b[r].m, e))) == Heard(g.b[r]);
  }

  lemma InvStep(g: Instance, s: Step)
    requires Inv(g)
    ensures Inv(Next(g, s))
  {
    if !s.Watch? && !s.HearOnline? && !IsRank(g.parent, s.r) {
      return;
    }
    match s {
      case PostExternal(r, e) =>
        if External(e) { PostFits(g, r, e); PutKeepsInv(g, r, g.b[r].(m := PostEvent(g.b[r].m, e))); }
      case Subscribe(r) =>
        if r != 0 && g.b[r].sub.NotYet? {
          SubscribeFits(g, r);
          PutKeepsInv(g, r, AfterSubscribe(g.b[r], g.b[g.parent[r]].m.state));
        }
      case HearParent(r) =>
        if r != 0 && g.b[r].heard != [] { HearFits(g, r); PutKeepsInv(g, r, AfterHear(g.b[r])); }
      case LoseParent(r) =>
        if r != 0 { LoseFits(g, r); PutKeepsInv(g, r, AfterLose(g.b[r])); }
      case Dispatch(r, env) => DispatchKeepsInv(g, r, env);
      case ServeJoin(r) =>
        if g.b[r].joining { JoinFits(g, r); PutKeepsInv(g, r, AfterJoin(g.b[r], r)); }
      case GroupLeave(r, ranks) =>
        assert Good(g, r);
        JoinsGrow(g.b[r].group.batch, [Update.Update(ranks, false)], InQuorum(g));
        QuietFits(g, r, AfterLeave(g.b[r], r, ranks));
        PutKeepsInv(g, r, AfterLeave(g.b[r], r, ranks));
      case GroupFlush(r) => FlushFits(g, r); PutKeepsInv(g, r, AfterFlush(g.b[r], r));
      case GroupDeliver(r) =>
        if r != 0 && g.b[r].group.up != [] { DeliverKeepsInv(g, r); }
      case GroupDrop(r) =>
        assert Good(g, r);
        var b1 := g.b[r].(group := g.b[r].group.(up := []));
        QuietFits(g, r, b1);
        PutKeepsInv(g, r, b1);
      case Watch =>
        assert Good(g, 0);
        var b1 := g.b[0].(reports := g.b[0].reports + [g.b[0].group.members]);
        QuietFits(g, 0, b1);
        PutKeepsInv(g, 0, b1);
      case HearOnline =>
        if g.b[0].reports != [] { ReportFits(g); PutKeepsInv(g, 0, AfterReport(g.config[0], g.b[0])); }
    }
  }

  lemma {:induction false} InvHolds(g: Instance, steps: seq<Step>)
    requires Inv(g)
    ensures Inv(Run(g, steps))
    decreases |steps|
  {
    if steps != [] {
      InvHolds(g, steps[..|steps| - 1]);
      InvStep(Run(g, steps[..|steps| - 1]), steps[|steps| - 1]);
    }
  }

  /* ---- the guarantees ---- */

  lemma {:induction false} RunReachesRoot(g: Instance, r: int, a: int)
    requires Inv(g) && IsRank(g.parent, r)
    requires Entered(g, r, RUN) && Within(g.parent, r, a)
    ensures Entered(g, a, RUN)
    decreases Level(g.parent, r)
  {
    if r != a {
      assert Good(g, r);
      RunReachesRoot(g, g.parent[r], a);
    }
  }

  /** Start-up order, in every run of every tree: a broker is in or past RUN only if every ancestor has
      entered RUN and at least the configured quorum of brokers has entered QUORUM. */
  lemma NobodyRunsEarly(parent: seq<int>, config: seq<Config>, steps: seq<Step>, r: int, a: int)
    requires WellFormed(Begin(parent, config)) && IsRank(parent, r) && Within(parent, r, a)
    requires Entered(Run(Begin(parent, config), steps), r, RUN)
    ensures Entered(Run(Begin(parent, config), steps), a, RUN)
    ensures |InQuorum(Run(Begin(parent, config), steps))| >= config[0].quorumSize
  {
    BeginIsGood(parent, config);
    var g := Run(Begin(parent, config), steps);
    InvHolds(Begin(parent, config), steps);
    RunReachesRoot(g, r, a);
    EveryRankIsUnderRoot(parent, r);
    RunReachesRoot(g, r, 0);
    assert Good(g, 0);
  }

  /** In every run, a broker waiting in QUORUM has seen its parent in QUORUM or beyond, so the branch of
      the quorum check for a parent in INIT is never taken; and what it has seen never goes back. */
  lemma ParentIsNeverBehind(parent: seq<int>, config: seq<Config>, steps: seq<Step>, r: int, g: Instance)
    requires WellFormed(Begin(parent, config)) && 0 < r < |parent|
    requires g == Run(Begin(parent, config), steps)
    ensures g.b[r].m.state == QUORUM ==> g.b[r].m.parentValid && Ord(g.b[r].m.parentState) >= Ord(QUORUM)
    ensures g.b[r].heard != [] && g.b[r].m.parentValid ==> Ord(g.b[r].m.parentState) < Ord(g.b[r].heard[0])
    ensures g.b[r].m.parentValid ==> Ord(g.b[r].m.parentState) <= Ord(g.b[g.parent[r]].m.state)
  {
    BeginIsGood(parent, config);
    InvHolds(Begin(parent, config), steps);
    assert Good(g, r);
    if g.b[r].m.state == QUORUM {
      assert QUORUM in g.b[r].m.past;
    }
    if g.b[r].m.parentValid {
      assert Heard(g.b[r])[0] == g.b[r].m.parentState;
      if g.b[r].heard != [] {
        NewsIsLater(g.b[r], g.b[g.parent[r]].m);
      }
    }
  }
}
