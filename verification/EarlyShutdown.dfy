/** Brokers that turn to shut-down before they reach RUN: they skip CLEANUP, which is where a broker stops
    accepting children, so a child may say hello while they finalize. */
module EarlyShutdown {
  import opened Tree
  import opened Lifecycle
  import opened Shutdown

  /** The broker turned from start-up to shut-down in state `s`. */
  ghost predicate TurnedIn(past: seq<State>, s: State)
  {
    exists i :: 0 <= i < |past| - 1 && TurnsAt(past, i, s)
  }

  predicate TurnsAt(past: seq<State>, i: int, s: State)
    requires 0 <= i < |past| - 1
  {
    past[i] == s && (past[i + 1] == SHUTDOWN || past[i + 1] == CLEANUP)
  }

  /** In every run in which broker `p` turned in `s`, it has no online child from FINALIZE on. */
  ghost predicate FinalizesAlone(parent: seq<int>, p: int, s: State)
  {
    forall config, steps |
      && WellFormed(Begin(parent, config)) && IsRank(parent, p)
      && TurnedIn(Run(Begin(parent, config), steps).b[p].m.past, s)
      && FINALIZE in Run(Begin(parent, config), steps).b[p].m.past
      :: OnlineChildren(Run(Begin(parent, config), steps), p) == {}
  }

  ghost predicate HasChild(parent: seq<int>, p: int)
  {
    exists c :: 0 < c < |parent| && parent[c] == p
  }

  /* ---- rank 0 never turns in JOIN ---- */

  /** The event that takes rank 0 out of JOIN is ahead of any that would fail it. */
  predicate Ready(events: seq<Event>)
  {
    events != [] && (events[0].ParentNone? || (!events[0].ParentFail? && Ready(events[1..])))
  }

  lemma {:induction false} ReadyStays(events: seq<Event>, more: seq<Event>)
    requires Ready(events)
    ensures Ready(events + more)
  {
    if !events[0].ParentNone? {
      ReadyStays(events[1..], more);
      assert (events + more)[1..] == events[1..] + more;
    }
  }

  lemma {:induction false} ReadyOnEntry(events: seq<Event>)
    requires ParentFail !in events
    ensures Ready(events + [ParentNone])
  {
    if events != [] {
      ReadyOnEntry(events[1..]);
      assert (events + [ParentNone])[1..] == events[1..] + [ParentNone];
    }
  }

  ghost predicate RootJoins(m: Machine)
  {
    match m.state
    case NONE => m.past == [] && ParentFail !in m.events
    case JOIN => m.past == [JOIN] && Ready(m.events)
    case _ => |m.past| >= 2 && m.past[0] == JOIN && m.past[1] == INIT
  }

  lemma RootDispatch(c: Config, m: Machine, env: Env)
    requires c.rank == 0 && RootJoins(m)
    ensures RootJoins(Lifecycle.Dispatch(c, m, env))
  {
    if m.events != [] {
      var e, rest := m.events[0], m.events[1..];
      if m.state == NONE && e == Start {
        ReadyOnEntry(rest);
      } else if NextState(m.state, e) != m.state {
        DispatchUnfolds(c, m, env);
      }
    }
  }

  lemma RootInput(c: Config, m: Machine, i: Input)
    requires RootJoins(m) && External(i) && !i.Update? && !i.Lost?
    ensures RootJoins(Apply(c, m, i))
  {
    if m.state == JOIN {
      match i
      case Post(e) => ReadyStays(m.events, [e]);
      case Signal => ReadyStays(m.events, [ParentFail]);
      case _ =>
    }
  }

  lemma RootNotified(m: Machine, peers: nat)
    requires RootJoins(m)
    ensures RootJoins(OverlayChange(m, false, peers))
  {
  }

  lemma RootStep(g: Instance, s: Step)
    requires WellFormed(g) && RootJoins(g.b[0].m)
    ensures RootJoins(Next(g, s).b[0].m)
  {
    if IsRank(g.parent, s.r) {
      var r, b := s.r, g.b[s.r];
      match s
      case ToMachine(_, i) => if r == 0 && External(i) && Heard(g, r, i) { RootInput(g.config[0], b.m, i); }
      case Dispatch(_, env) => if r == 0 { RootDispatch(g.config[0], b.m, env.(childPeers := |OnlineChildren(g, 0)|)); }
      case SayHello(_) =>
      case SendOther(_) =>
      case Receive(_, accepted, perr) =>
        if r != 0 && b.up != [] {
          var g1 := Put(g, r, b.(up := b.up[1..]));
          RootHearsStatus(g1, r, Left, perr);
          RootHearsStatus(g1, r, Up, perr);
        }
      case Lose(_, perr) => if r != 0 { RootHearsStatus(g, r, Status.Lost, perr); }
      case ParentChange(_, perr) => RootHears(g, r, perr);
    }
  }

  lemma RootHears(g: Instance, r: int, perr: bool)
    requires WellFormed(g) && RootJoins(g.b[0].m) && IsRank(g.parent, r)
    ensures RootJoins(Notify(g, r, perr).b[0].m)
  {
    RootNotified(g.b[0].m, |OnlineChildren(g, r)|);
  }

  lemma RootHearsStatus(g: Instance, r: int, s: Status, perr: bool)
    requires WellFormed(g) && RootJoins(g.b[0].m) && 0 < r < |g.b|
    ensures RootJoins(SetStatus(g, r, s, perr).b[0].m)
  {
    RootHears(Put(g, r, g.b[r].(status := s)), g.parent[r], perr);
  }

  lemma {:induction false} RootAlwaysJoins(parent: seq<int>, config: seq<Config>, steps: seq<Step>)
    requires WellFormed(Begin(parent, config))
    ensures RootJoins(Run(Begin(parent, config), steps).b[0].m)
    decreases |steps|
  {
    if steps != [] {
      var n := |steps| - 1;
      RootAlwaysJoins(parent, config, steps[..n]);
      RootStep(Run(Begin(parent, config), steps[..n]), steps[n]);
    }
  }

  lemma RootNeverTurnsInJoin(parent: seq<int>, config: seq<Config>, steps: seq<Step>)
    requires WellFormed(Begin(parent, config))
    ensures !TurnedIn(Run(Begin(parent, config), steps).b[0].m.past, JOIN)
  {
    RootAlwaysJoins(parent, config, steps);
    assert Inv(Begin(parent, config));
    InvHolds(Begin(parent, config), steps);
    var g := Run(Begin(parent, config), steps);
    assert Good(g, 0);
    JoinIsFirst(g.b[0].m);
  }

  lemma JoinIsFirst(m: Machine)
    requires RootJoins(m) && PastIsSound(m)
    ensures !TurnedIn(m.past, JOIN)
  {
    forall i | 0 <= i < |m.past| - 1
      ensures !TurnsAt(m.past, i, JOIN)
    {
      if i > 0 {
        assert Ord(m.past[0]) < Ord(m.past[i]);
      }
    }
  }

  /* ---- runs that reach the states before RUN, in any tree ---- */

  /** Every broker has an rc1 script and no other. */
  function Plain(parent: seq<int>): (g: Instance)
    requires IsTree(parent)
    ensures WellFormed(g) && g.parent == parent
  {
    Begin(parent, seq(|parent|, r requires 0 <= r < |parent| => Config(r, true, false, false, false, 1)))
  }

  function Fresh(): Broker
  {
    Broker(Initial(), false, [], false, false, Never)
  }

  /** A run of the plain tree, in which nobody but `p` and the brokers above it has done anything. */
  ghost predicate Reached(parent: seq<int>, steps: seq<Step>, g: Instance, p: int)
  {
    && IsTree(parent) && IsRank(parent, p)
    && g == Run(Plain(parent), steps)
    && g.b[p] == Fresh().(m := g.b[p].m)
    && forall r :: 0 <= r < |parent| && !Within(parent, p, r) ==> g.b[r] == Fresh()
  }

  lemma Extend(parent: seq<int>, steps: seq<Step>, g: Instance, s: Step) returns (more: seq<Step>, g1: Instance)
    requires IsTree(parent) && g == Run(Plain(parent), steps)
    ensures g1 == Next(g, s) && g1 == Run(Plain(parent), more)
  {
    more := steps + [s];
    assert more[..|steps|] == steps;
    g1 := Next(g, s);
  }

  /** Broker `p` gets an input from outside. */
  lemma Give(parent: seq<int>, steps: seq<Step>, g: Instance, p: int, i: Input)
    returns (more: seq<Step>, g1: Instance)
    requires Reached(parent, steps, g, p) && External(i) && Heard(g, p, i)
    ensures Reached(parent, more, g1, p) && g1.b[p].m == Apply(g.config[p], g.b[p].m, i)
    ensures g1 == Put(g, p, g.b[p].(m := Apply(g.config[p], g.b[p].m, i)))
  {
    more, g1 := Extend(parent, steps, g, ToMachine(p, i));
  }

  lemma NoneOnline(parent: seq<int>, steps: seq<Step>, g: Instance, p: int)
    requires Reached(parent, steps, g, p)
    ensures OnlineChildren(g, p) == {}
  {
    forall c | 0 < c < |g.b| && g.parent[c] == p
      ensures g.b[c].status == Never
    {
      if Within(parent, p, c) {
        NotOwnParent(parent, c);
        BelowIsDeeper(parent, p, c);
        BelowIsDeeper(parent, c, p);
      }
    }
  }

  /** Broker `p` handles an event on its way to SHUTDOWN. */
  lemma Handle(parent: seq<int>, steps: seq<Step>, g: Instance, p: int, m: Machine)
    returns (more: seq<Step>, g1: Instance)
    requires Reached(parent, steps, g, p)
    requires m == Lifecycle.Dispatch(g.config[p], g.b[p].m, CALM)
    requires m.state == SHUTDOWN || Ord(m.state) <= Ord(QUORUM)
    ensures Reached(parent, more, g1, p) && g1.b[p].m == m
    ensures g1 == Put(g, p, g.b[p].(m := m))
  {
    NoneOnline(parent, steps, g, p);
    more, g1 := Extend(parent, steps, g, Dispatch(p, CALM));
    assert CALM.(childPeers := |OnlineChildren(g, p)|) == CALM;
  }

  function In(s: State, events: seq<Event>, p: int, past: seq<State>): Machine
  {
    Machine(s, events, if p == 0 then NONE else QUORUM, p != 0, false, past)
  }

  lemma ToJoin(parent: seq<int>, steps0: seq<Step>, g0: Instance, p: int) returns (steps: seq<Step>, g: Instance)
    requires Reached(parent, steps0, g0, p) && g0.b[p] == Fresh()
    ensures Reached(parent, steps, g, p)
    ensures g == Put(g0, p, g0.b[p].(m := Machine(JOIN, if p == 0 then [ParentNone] else [], NONE, false, false, [JOIN])))
  {
    steps, g := Give(parent, steps0, g0, p, Post(Start));
    assert g.b[p].m.events == [Start];
    steps, g := Handle(parent, steps, g, p, Machine(JOIN, if p == 0 then [ParentNone] else [], NONE, false, false, [JOIN]));
  }

  /** The parent of `p`, if it has one, has entered QUORUM. */
  ghost predicate ParentInQuorum(g: Instance, p: int)
    requires WellFormed(g) && IsRank(g.parent, p)
  {
    p > 0 ==> QUORUM in g.b[g.parent[p]].m.past
  }

  /** In JOIN with what it needs to go on: rank 0 at once, another broker once it hears its parent. */
  lemma ToJoined(parent: seq<int>, steps0: seq<Step>, g0: Instance, p: int) returns (steps: seq<Step>, g: Instance)
    requires Reached(parent, steps0, g0, p) && g0.b[p] == Fresh() && ParentInQuorum(g0, p)
    ensures Reached(parent, steps, g, p)
    ensures g == Put(g0, p, g0.b[p].(m := In(JOIN, if p == 0 then [ParentNone] else [ParentReady], p, [JOIN])))
  {
    NotOwnParent(parent, p);
    steps, g := ToJoin(parent, steps0, g0, p);
    if p > 0 {
      steps, g := Give(parent, steps, g, p, Update(QUORUM));
      assert g.b[p].m == In(JOIN, [ParentReady], p, [JOIN]);
    }
  }

  lemma PutTwice(g: Instance, p: int, b: Broker, b1: Broker)
    requires 0 <= p < |g.b|
    ensures Put(Put(g, p, b), p, b1) == Put(g, p, b1)
  {
  }

  lemma JoinLeadsToInit(c: Config)
    requires c.rc1
    ensures Lifecycle.Dispatch(c, In(JOIN, if c.rank == 0 then [ParentNone] else [ParentReady], c.rank, [JOIN]), CALM)
         == In(INIT, [], c.rank, [JOIN, INIT])
  {
  }

  lemma ToInit(parent: seq<int>, steps0: seq<Step>, g0: Instance, p: int) returns (steps: seq<Step>, g: Instance)
    requires Reached(parent, steps0, g0, p) && g0.b[p] == Fresh() && ParentInQuorum(g0, p)
    ensures Reached(parent, steps, g, p)
    ensures g == Put(g0, p, g0.b[p].(m := In(INIT, [], p, [JOIN, INIT])))
  {
    steps, g := ToJoined(parent, steps0, g0, p);
    JoinLeadsToInit(g.config[p]);
    PutTwice(g0, p, g.b[p], g0.b[p].(m := In(INIT, [], p, [JOIN, INIT])));
    steps, g := Handle(parent, steps, g, p, In(INIT, [], p, [JOIN, INIT]));
  }

  lemma ToQuorum(parent: seq<int>, steps0: seq<Step>, g0: Instance, p: int) returns (steps: seq<Step>, g: Instance)
    requires Reached(parent, steps0, g0, p) && g0.b[p] == Fresh() && ParentInQuorum(g0, p)
    ensures Reached(parent, steps, g, p)
    ensures g == Put(g0, p, g0.b[p].(m := In(QUORUM, [], p, [JOIN, INIT, QUORUM])))
  {
    steps, g := ToInit(parent, steps0, g0, p);
    steps, g := Give(parent, steps, g, p, Post(Rc1Success));
    assert g.b[p].m == In(INIT, [Rc1Success], p, [JOIN, INIT]);
    PutTwice(g0, p, g.b[p], g0.b[p].(m := In(QUORUM, [], p, [JOIN, INIT, QUORUM])));
    steps, g := Handle(parent, steps, g, p, In(QUORUM, [], p, [JOIN, INIT, QUORUM]));
  }

  /** The brokers above `p` have reached QUORUM, and `p` has not begun. */
  lemma {:induction false} DriveAncestors(parent: seq<int>, p: int) returns (steps: seq<Step>, g: Instance)
    requires IsTree(parent) && IsRank(parent, p)
    ensures Reached(parent, steps, g, p) && g.b[p] == Fresh() && ParentInQuorum(g, p)
    decreases Level(parent, p)
  {
    if p == 0 {
      steps, g := [], Plain(parent);
    } else {
      var q := parent[p];
      steps, g := DriveAncestors(parent, q);
      steps, g := ToQuorum(parent, steps, g, q);
      if Within(parent, q, p) {
        NotOwnParent(parent, p);
        BelowIsDeeper(parent, q, p);
        BelowIsDeeper(parent, p, q);
      }
      forall r | 0 <= r < |parent| && !Within(parent, p, r)
        ensures g.b[r] == Fresh()
      {
        assert !Within(parent, q, r);
      }
    }
  }

  /* ---- a child that says hello too late ---- */

  /** Broker `p`, in SHUTDOWN, has counted no children. */
  ghost predicate Turned(g: Instance, p: int, s: State)
    requires WellFormed(g) && IsRank(g.parent, p)
  {
    && g.b[p].m.state == SHUTDOWN && g.b[p].m.events == [ChildrenNone]
    && !g.b[p].closing && TurnedIn(g.b[p].m.past, s)
  }

  lemma FailureShutsDown(c: Config, m: Machine, e: Event)
    requires m.state != SHUTDOWN && NextState(m.state, e) == SHUTDOWN
    ensures Lifecycle.Dispatch(c, m.(events := [e]), CALM)
         == m.(state := SHUTDOWN, events := [ChildrenNone], past := m.past + [SHUTDOWN])
  {
  }

  /** An event that fails the state `s` broker `p` is in takes it there. */
  lemma Fail(parent: seq<int>, steps0: seq<Step>, g0: Instance, p: int, s: State, i: Input, e: Event)
    returns (steps: seq<Step>, g: Instance)
    requires Reached(parent, steps0, g0, p) && External(i) && Heard(g0, p, i)
    requires g0.b[p].m.state == s && g0.b[p].m.events == [] && g0.b[p].m.past != []
    requires g0.b[p].m.past[|g0.b[p].m.past| - 1] == s
    requires Apply(g0.config[p], g0.b[p].m, i) == PostEvent(g0.b[p].m, e)
    requires s != SHUTDOWN && NextState(s, e) == SHUTDOWN
    ensures Reached(parent, steps, g, p) && Turned(g, p, s)
  {
    var m := g0.b[p].m;
    steps, g := Give(parent, steps0, g0, p, i);
    var m1 := m.(state := SHUTDOWN, events := [ChildrenNone], past := m.past + [SHUTDOWN]);
    assert g.b[p].m == m.(events := [e]);
    FailureShutsDown(g.config[p], m, e);
    steps, g := Handle(parent, steps, g, p, m1);
    assert TurnsAt(m1.past, |m.past| - 1, s);
  }

  lemma ToTurned(parent: seq<int>, p: int, s: State) returns (steps: seq<Step>, g: Instance)
    requires IsTree(parent) && IsRank(parent, p)
    requires s in [JOIN, INIT, QUORUM] && (p == 0 ==> s != JOIN)
    ensures Reached(parent, steps, g, p) && Turned(g, p, s)
  {
    steps, g := DriveAncestors(parent, p);
    if s == JOIN {
      steps, g := ToJoin(parent, steps, g, p);
      steps, g := Fail(parent, steps, g, p, s, Signal, ParentFail);
    } else if s == INIT {
      steps, g := ToInit(parent, steps, g, p);
      steps, g := Fail(parent, steps, g, p, s, Post(Rc1Fail), Rc1Fail);
    } else {
      steps, g := ToQuorum(parent, steps, g, p);
      steps, g := Fail(parent, steps, g, p, s, Signal, QuorumFail);
    }
  }

  /** In SHUTDOWN but not closing, `p` accepts a hello from its child `c`. */
  lemma LateHello(g: Instance, p: int, c: int)
    requires WellFormed(g) && 0 < c < |g.b| && g.parent[c] == p
    requires g.b[c].up == [Hello] && g.b[c].status == Never && !g.b[p].closing && g.b[p].m.state == SHUTDOWN
    ensures Next(g, Receive(c, true, false)).b[p] == g.b[p]
    ensures Next(g, Receive(c, true, false)).b[c].status == Up
  {
    NotOwnParent(g.parent, c);
    var g1 := Put(g, c, g.b[c].(up := []));
    var g2 := Put(g1, c, g1.b[c].(status := Up));
    assert g.b[c].up[1..] == [];
    assert c in OnlineChildren(g2, p);
    assert Next(g, Receive(c, true, false)) == Notify(g2, p, false);
  }

  lemma ToFinalize(g: Instance, p: int, c: int)
    requires WellFormed(g) && 0 < c < |g.b| && g.parent[c] == p
    requires g.b[p].m.state == SHUTDOWN && g.b[p].m.events == [ChildrenNone]
    ensures Next(g, Dispatch(p, CALM)).b[p].m.past == g.b[p].m.past + [FINALIZE]
    ensures Next(g, Dispatch(p, CALM)).b[c] == g.b[c]
  {
    NotOwnParent(g.parent, c);
  }

  lemma ChildIsFresh(parent: seq<int>, steps: seq<Step>, g: Instance, p: int, c: int)
    requires Reached(parent, steps, g, p) && 0 < c < |parent| && parent[c] == p
    ensures g.b[c] == Fresh() && c != p
  {
    NotOwnParent(parent, c);
    if Within(parent, p, c) {
      BelowIsDeeper(parent, p, c);
      BelowIsDeeper(parent, c, p);
    }
  }

  lemma StillTurned(past: seq<State>, s: State, t: State)
    requires TurnedIn(past, s)
    ensures TurnedIn(past + [t], s)
  {
    var i :| 0 <= i < |past| - 1 && TurnsAt(past, i, s);
    assert TurnsAt(past + [t], i, s);
  }

  /** In every tree, a broker with a child can turn to shut-down in any state before RUN, but rank 0 in
      JOIN, and enter FINALIZE with the child online. */
  lemma ChildOnlineInFinalize(parent: seq<int>, p: int, c: int, s: State) returns (steps: seq<Step>)
    requires IsTree(parent) && 0 < c < |parent| && parent[c] == p
    requires s in [JOIN, INIT, QUORUM] && (p == 0 ==> s != JOIN)
    ensures TurnedIn(Run(Plain(parent), steps).b[p].m.past, s)
    ensures FINALIZE in Run(Plain(parent), steps).b[p].m.past
    ensures c in OnlineChildren(Run(Plain(parent), steps), p)
  {
    var g: Instance;
    steps, g := ToTurned(parent, p, s);
    ChildIsFresh(parent, steps, g, p, c);
    StillTurned(g.b[p].m.past, s, FINALIZE);
    steps, g := Extend(parent, steps, g, SayHello(c));
    LateHello(g, p, c);
    steps, g := Extend(parent, steps, g, Receive(c, true, false));
    ToFinalize(g, p, c);
    steps, g := Extend(parent, steps, g, Dispatch(p, CALM));
  }

  /** In any tree, a broker that turned to shut-down in `s` is sure to have no child online from FINALIZE on
      exactly if `s` is RUN, the only state from which it goes through CLEANUP; or it has no children; or
      it is rank 0, and `s` is JOIN, where rank 0 cannot turn. */
  lemma FinalizesAloneIff(parent: seq<int>, p: int, s: State)
    requires IsTree(parent) && IsRank(parent, p) && s in [JOIN, INIT, QUORUM, RUN]
    ensures FinalizesAlone(parent, p, s) <==> s == RUN || !HasChild(parent, p) || (p == 0 && s == JOIN)
  {
    if s == RUN || !HasChild(parent, p) || (p == 0 && s == JOIN) {
      forall config, steps | WellFormed(Begin(parent, config))
          && TurnedIn(Run(Begin(parent, config), steps).b[p].m.past, s)
          && FINALIZE in Run(Begin(parent, config), steps).b[p].m.past
        ensures OnlineChildren(Run(Begin(parent, config), steps), p) == {}
      {
        FinalizesWithout(parent, config, steps, p, s);
      }
    } else {
      var c :| 0 < c < |parent| && parent[c] == p;
      var steps := ChildOnlineInFinalize(parent, p, c, s);
      assert WellFormed(Begin(parent, Plain(parent).config));
    }
  }

  lemma FinalizesWithout(parent: seq<int>, config: seq<Config>, steps: seq<Step>, p: int, s: State)
    requires WellFormed(Begin(parent, config)) && IsRank(parent, p)
    requires s == RUN || !HasChild(parent, p) || (p == 0 && s == JOIN)
    requires TurnedIn(Run(Begin(parent, config), steps).b[p].m.past, s)
    requires FINALIZE in Run(Begin(parent, config), steps).b[p].m.past
    ensures OnlineChildren(Run(Begin(parent, config), steps), p) == {}
  {
    if s == RUN {
      ChildrenFinishFirst(parent, config, steps, p, Run(Begin(parent, config), steps));
    } else if p == 0 && s == JOIN {
      RootNeverTurnsInJoin(parent, config, steps);
    }
  }
}
