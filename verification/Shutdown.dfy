/** Shut-down of the whole instance: brokers say hello to their parent once and goodbye when they are
    done, and a parent goes on to FINALIZE when it counts no child online. */
module Shutdown {
  import opened Tree
  import opened Lifecycle

  /** What the parent has recorded of a broker: never heard from, online, said goodbye, or lost. */
  datatype Status = Never | Up | Left | Lost

  datatype Message = Hello | Other | Bye

  /** One broker.  `closing` is set once it accepts no more children; `up` is what it has sent to its
      parent and the parent has not yet handled; `status` is what its parent has recorded of it. */
  datatype Broker = Broker(
    m: Machine,
    closing: bool,
    up: seq<Message>,
    saidHello: bool,
    saidBye: bool,
    status: Status)

  datatype Instance = Instance(parent: seq<int>, config: seq<Config>, b: seq<Broker>)

  ghost predicate WellFormed(g: Instance)
  {
    && IsTree(g.parent) && |g.config| == |g.b| == |g.parent|
    && forall r :: 0 <= r < |g.config| ==> g.config[r].rank == r
  }

  function Begin(parent: seq<int>, config: seq<Config>): Instance
  {
    Instance(parent, config, seq(|parent|, _ => Broker(Initial(), false, [], false, false, Never)))
  }

  /** The children of `p` that it counts as online. */
  function OnlineChildren(g: Instance, p: int): set<int>
    requires |g.b| == |g.parent|
  {
    set c | 0 < c < |g.b| && g.parent[c] == p && g.b[c].status == Up
  }

  /** Events that come from outside the state machine: the start, the end of scripts and of requests, and a
      request to shut down. */
  predicate External(i: Input)
  {
    match i
    case Post(e) =>
      && !e.ChildrenNone? && !e.ChildrenComplete? && !e.QuorumFull?
      && !e.ParentReady? && !e.ParentNone? && !e.ParentFail?
    case Overlay(_, _) => false
    case Process(_) => false
    case _ => true
  }

  /** What broker `r` hears of its parent is a state the parent has entered; rank 0 has no parent, and it
      alone hears who is online. */
  predicate Heard(g: Instance, r: int, i: Input)
    requires |g.b| == |g.parent|
  {
    match i
    case Update(s) => 0 < r < |g.b| && 0 <= g.parent[r] < |g.b| && s in g.b[g.parent[r]].m.past
    case Lost => r > 0
    case Online(_) => r == 0
    case _ => true
  }

  datatype Step =
    | ToMachine(r: int, input: Input)
    | Dispatch(r: int, env: Env)
    | SayHello(r: int)
    | SendOther(r: int)
    | Receive(r: int, accepted: bool, parentError: bool)   // r's parent handles the next message from r
    | Lose(r: int, parentError: bool)                      // r's parent finds the connection to r broken
    | ParentChange(r: int, parentError: bool)              // r's connection to its parent changes

  function Put(g: Instance, r: int, b: Broker): Instance
    requires 0 <= r < |g.b|
  {
    g.(b := g.b[r := b])
  }

  /** The overlay of broker `r` notifies its state machine of a change. */
  function Notify(g: Instance, r: int, parentError: bool): Instance
    requires 0 <= r < |g.b| == |g.parent|
  {
    Put(g, r, g.b[r].(m := OverlayChange(g.b[r].m, parentError && r != 0, |OnlineChildren(g, r)|)))
  }

  function SetStatus(g: Instance, r: int, s: Status, parentError: bool): Instance
    requires 0 < r < |g.b| == |g.parent| && 0 <= g.parent[r] < |g.b|
  {
    Notify(Put(g, r, g.b[r].(status := s)), g.parent[r], parentError)
  }

  /** Handling one event, with the effects of entering CLEANUP, FINALIZE and GOODBYE. */
  function DispatchOne(c: Config, b: Broker, env: Env): Broker
  {
    var m := Lifecycle.Dispatch(c, b.m, env);
    if m.state == b.m.state then b.(m := m)
    else if m.state == CLEANUP || m.state == FINALIZE then b.(m := m, closing := true)
    else if m.state == GOODBYE && c.rank > 0 && !env.goodbyeFails && !b.saidBye then
      b.(m := m, up := b.up + [Bye], saidBye := true)
    else b.(m := m)
  }

  function Next(g: Instance, s: Step): (g1: Instance)
    requires WellFormed(g)
    ensures WellFormed(g1) && g1.parent == g.parent && g1.config == g.config
  {
    if !IsRank(g.parent, s.r) then g else
    var r, b := s.r, g.b[s.r];
    match s
    case ToMachine(_, i) => if External(i) && Heard(g, r, i) then Put(g, r, b.(m := Apply(g.config[r], b.m, i))) else g
    case Dispatch(_, env) => Put(g, r, DispatchOne(g.config[r], b, env.(childPeers := |OnlineChildren(g, r)|)))
    case SayHello(_) => if r == 0 || b.saidHello || b.saidBye then g else Put(g, r, b.(up := b.up + [Hello], saidHello := true))
    case SendOther(_) => if r == 0 || !b.saidHello || b.saidBye then g else Put(g, r, b.(up := b.up + [Other]))
    case Receive(_, accepted, perr) =>
      if r == 0 || b.up == [] then g else
        var g1 := Put(g, r, b.(up := b.up[1..]));
        if b.status == Up then (if b.up[0].Bye? then SetStatus(g1, r, Left, perr) else g1)
        else if b.up[0].Hello? && !g.b[g.parent[r]].closing && accepted then SetStatus(g1, r, Up, perr)
        else g1
    case Lose(_, perr) => if r == 0 || b.status != Up then g else SetStatus(g, r, Status.Lost, perr)
    case ParentChange(_, perr) => Notify(g, r, perr)
  }

  function Run(g: Instance, steps: seq<Step>): (g1: Instance)
    requires WellFormed(g)
    ensures WellFormed(g1) && g1.parent == g.parent && g1.config == g.config
    decreases |steps|
  {
    if steps == [] then g else Next(Run(g, steps[..|steps| - 1]), steps[|steps| - 1])
  }

  /* ---- invariants ---- */

  predicate CountedNone(m: Machine)
  {
    ChildrenNone in m.events || ChildrenComplete in m.events
  }

  /** How histories fit together: each state was entered from one that leads to it. */
  ghost predicate Steady(m: Machine)
  {
    && PastIsSound(m)
    && (FINALIZE in m.past ==> SHUTDOWN in m.past)
    && (GOODBYE in m.past ==> FINALIZE in m.past)
    && (CountedNone(m) ==> SHUTDOWN in m.past)
    && (RUN in m.past && SHUTDOWN in m.past ==> CLEANUP in m.past)
    && (CLEANUP in m.past ==> RUN in m.past)
  }

  ghost predicate Closed(g: Instance, p: int)
    requires WellFormed(g) && IsRank(g.parent, p)
  {
    var b := g.b[p];
    && (CLEANUP in b.m.past ==> b.closing)
    && (CLEANUP in b.m.past && (CountedNone(b.m) || FINALIZE in b.m.past) ==> OnlineChildren(g, p) == {})
  }

  ghost predicate SaidBye(b: Broker)
  {
    (Bye in b.up || b.status == Left) ==> GOODBYE in b.m.past
  }

  ghost predicate Good(g: Instance, r: int)
    requires WellFormed(g) && IsRank(g.parent, r)
  {
    Steady(g.b[r].m) && Closed(g, r) && SaidBye(g.b[r])
  }

  ghost predicate Inv(g: Instance)
  {
    WellFormed(g) && forall r :: 0 <= r < |g.b| ==> Good(g, r)
  }

  /* ---- one machine ---- */

  lemma RisingEnd(m: Machine, s: State)
    requires PastIsSound(m) && s in m.past
    ensures Ord(s) <= Ord(m.state)
  {
  }

  lemma EntryCounts(c: Config, m: Machine, env: Env)
    ensures ChildrenComplete !in EntryEvents(c, m, env)
    ensures ChildrenNone in EntryEvents(c, m, env) ==> m.state == SHUTDOWN && env.childPeers == 0
  {
  }

  /** The machine just after it has entered `next`, before the entry action. */
  function Entered(m: Machine, next: State): Machine
    requires m.events != []
  {
    m.(events := m.events[1..], state := next, past := m.past + [next])
  }

  lemma DispatchUnfolds(c: Config, m: Machine, env: Env)
    requires m.events != [] && NextState(m.state, m.events[0]) != m.state
    ensures var m1 := Entered(m, NextState(m.state, m.events[0]));
      Lifecycle.Dispatch(c, m, env) == PostAll(m1, EntryEvents(c, m1, env))
  {
  }

  lemma EnteredSteady(m: Machine, next: State)
    requires Steady(m) && m.events != [] && next == NextState(m.state, m.events[0]) && next != m.state
    ensures Steady(Entered(m, next))
  {
    EnterSound(m, next);
    SuccessorFits(m, next);
  }

  lemma PostingSteady(m: Machine, es: seq<Event>)
    requires Steady(m)
    requires ChildrenComplete !in es && (ChildrenNone in es ==> SHUTDOWN in m.past)
    ensures Steady(PostAll(m, es))
  {
  }

  lemma DispatchSteady(c: Config, m: Machine, env: Env)
    requires Steady(m)
    ensures Steady(Lifecycle.Dispatch(c, m, env))
  {
    if m.events != [] {
      var next := NextState(m.state, m.events[0]);
      if next != m.state {
        var m1 := Entered(m, next);
        EnteredSteady(m, next);
        EntryCounts(c, m1, env);
        PostingSteady(m1, EntryEvents(c, m1, env));
        DispatchUnfolds(c, m, env);
      }
    }
  }

  /** The table's edges keep the history consistent. */
  lemma SuccessorFits(m: Machine, next: State)
    requires Steady(m) && m.events != [] && next == NextState(m.state, m.events[0]) && next != m.state
    ensures next == FINALIZE ==> SHUTDOWN in m.past
    ensures next == GOODBYE ==> FINALIZE in m.past
    ensures next == CLEANUP ==> RUN in m.past
    ensures next == SHUTDOWN && RUN in m.past ==> CLEANUP in m.past
    ensures next == RUN ==> SHUTDOWN !in m.past
  {
    if m.past != [] {
      assert m.state in m.past;
    }
    if RUN in m.past {
      RisingEnd(m, RUN);
    }
    if SHUTDOWN in m.past {
      RisingEnd(m, SHUTDOWN);
    }
  }

  /* ---- one step ---- */

  /** A broker changes in anything but its status: only its own part needs checking. */
  lemma PutSameStatus(g: Instance, r: int, b1: Broker)
    requires Inv(g) && IsRank(g.parent, r)
    requires b1.status == g.b[r].status && Steady(b1.m) && SaidBye(b1)
    requires CLEANUP in b1.m.past ==> b1.closing
    requires CLEANUP in b1.m.past && (CountedNone(b1.m) || FINALIZE in b1.m.past) ==> OnlineChildren(g, r) == {}
    ensures WellFormed(Put(g, r, b1)) && Inv(Put(g, r, b1))
  {
    var g1 := Put(g, r, b1);
    forall q | 0 <= q < |g.b|
      ensures Good(g1, q)
    {
      assert Good(g, q);
      assert OnlineChildren(g1, q) == OnlineChildren(g, q);
    }
  }

  /** The record of a child changes; it may come online only while the parent is not closing. */
  lemma PutStatus(g: Instance, r: int, s: Status)
    requires Inv(g) && 0 < r < |g.b|
    requires s == Up ==> !g.b[g.parent[r]].closing
    requires s == Left ==> GOODBYE in g.b[r].m.past
    ensures WellFormed(Put(g, r, g.b[r].(status := s))) && Inv(Put(g, r, g.b[r].(status := s)))
  {
    var g1 := Put(g, r, g.b[r].(status := s));
    forall q | 0 <= q < |g.b|
      ensures Good(g1, q)
    {
      assert Good(g, q) && Good(g, r);
      if q != g.parent[r] {
        assert OnlineChildren(g1, q) == OnlineChildren(g, q);
      } else if s != Up {
        assert OnlineChildren(g1, q) <= OnlineChildren(g, q);
      }
    }
  }

  lemma OverlayChangeSteady(m: Machine, perr: bool, peers: nat)
    requires Steady(m)
    ensures Steady(OverlayChange(m, perr, peers)) && OverlayChange(m, perr, peers).past == m.past
    ensures CountedNone(OverlayChange(m, perr, peers)) ==> CountedNone(m) || peers == 0
  {
    if m.state == SHUTDOWN {
      assert SHUTDOWN in m.past;
    }
  }

  lemma NotifyKeepsInv(g: Instance, r: int, perr: bool)
    requires Inv(g) && IsRank(g.parent, r)
    ensures WellFormed(Notify(g, r, perr)) && Inv(Notify(g, r, perr))
  {
    assert Good(g, r);
    var m := g.b[r].m;
    var m1 := OverlayChange(m, perr && r != 0, |OnlineChildren(g, r)|);
    OverlayChangeSteady(m, perr && r != 0, |OnlineChildren(g, r)|);
    PutSameStatus(g, r, g.b[r].(m := m1));
  }

  lemma SetStatusKeepsInv(g: Instance, r: int, s: Status, perr: bool)
    requires Inv(g) && 0 < r < |g.b|
    requires s == Up ==> !g.b[g.parent[r]].closing
    requires s == Left ==> GOODBYE in g.b[r].m.past
    ensures Inv(SetStatus(g, r, s, perr))
  {
    PutStatus(g, r, s);
    NotifyKeepsInv(Put(g, r, g.b[r].(status := s)), g.parent[r], perr);
  }

  lemma ExternalCounts(c: Config, m: Machine, i: Input)
    requires External(i)
    ensures Apply(c, m, i).past == m.past && Apply(c, m, i).state == m.state
    ensures CountedNone(Apply(c, m, i)) <==> CountedNone(m)
  {
  }

  lemma SameHistorySteady(m: Machine, m1: Machine)
    requires Steady(m) && m1.past == m.past && m1.state == m.state && (CountedNone(m1) <==> CountedNone(m))
    ensures Steady(m1)
  {
  }

  lemma ExternalSteady(c: Config, m: Machine, i: Input)
    requires Steady(m) && External(i)
    ensures Steady(Apply(c, m, i)) && Apply(c, m, i).past == m.past && Apply(c, m, i).state == m.state
    ensures CountedNone(Apply(c, m, i)) <==> CountedNone(m)
  {
    ExternalCounts(c, m, i);
    SameHistorySteady(m, Apply(c, m, i));
  }

  lemma DispatchedCloses(c: Config, b: Broker, env: Env)
    requires Steady(b.m) && SaidBye(b) && (CLEANUP in b.m.past ==> b.closing)
    ensures SaidBye(DispatchOne(c, b, env)) && DispatchOne(c, b, env).status == b.status
    ensures CLEANUP in DispatchOne(c, b, env).m.past ==> DispatchOne(c, b, env).closing
  {
    DispatchEnters(c, b.m, env);
  }

  lemma DispatchEnters(c: Config, m: Machine, env: Env)
    ensures var m1 := Lifecycle.Dispatch(c, m, env);
      m1.past == if m1.state == m.state then m.past else m.past + [m1.state]
  {
    if m.events != [] && NextState(m.state, m.events[0]) != m.state {
      DispatchUnfolds(c, m, env);
    }
  }

  /** After an event, "counted none" either held before or is the result of counting now. */
  lemma DispatchedCounts(c: Config, m: Machine, env: Env)
    requires Steady(m)
    ensures var m1 := Lifecycle.Dispatch(c, m, env);
      CLEANUP in m1.past && (CountedNone(m1) || FINALIZE in m1.past) ==>
        env.childPeers == 0 || (CLEANUP in m.past && (CountedNone(m) || FINALIZE in m.past))
  {
    if m.events != [] {
      assert m.events[0] in m.events;
      var next := NextState(m.state, m.events[0]);
      if next != m.state {
        DispatchUnfolds(c, m, env);
        EntryCounts(c, Entered(m, next), env);
        DispatchCounts(m, next);
      }
    }
  }

  lemma DispatchKeepsInv(g: Instance, r: int, env: Env)
    requires Inv(g) && IsRank(g.parent, r)
    requires env.childPeers == |OnlineChildren(g, r)|
    ensures Inv(Put(g, r, DispatchOne(g.config[r], g.b[r], env)))
  {
    assert Good(g, r);
    DispatchSteady(g.config[r], g.b[r].m, env);
    DispatchedCloses(g.config[r], g.b[r], env);
    DispatchedCounts(g.config[r], g.b[r].m, env);
    PutSameStatus(g, r, DispatchOne(g.config[r], g.b[r], env));
  }

  /** Entering CLEANUP happens before any count of children; entering FINALIZE after one. */
  lemma DispatchCounts(m: Machine, next: State)
    requires Steady(m) && m.events != [] && next == NextState(m.state, m.events[0]) && next != m.state
    ensures next == CLEANUP ==> !CountedNone(m) && FINALIZE !in m.past
    ensures next == FINALIZE ==> CountedNone(m)
  {
    assert m.events[0] in m.events;
    if SHUTDOWN in m.past {
      RisingEnd(m, SHUTDOWN);
    }
    if FINALIZE in m.past {
      RisingEnd(m, FINALIZE);
    }
  }

  lemma ReceiveKeepsInv(g: Instance, r: int, accepted: bool, perr: bool)
    requires Inv(g) && 0 < r < |g.b| && g.b[r].up != []
    ensures Inv(Next(g, Receive(r, accepted, perr)))
  {
    assert Good(g, r);
    var b := g.b[r];
    assert b.up[0] in b.up;
    PutSameStatus(g, r, b.(up := b.up[1..]));
    var g1 := Put(g, r, b.(up := b.up[1..]));
    if b.status == Up {
      if b.up[0].Bye? {
        SetStatusKeepsInv(g1, r, Left, perr);
      }
    } else if b.up[0].Hello? && !g.b[g.parent[r]].closing && accepted {
      NotOwnParent(g.parent, r);
      SetStatusKeepsInv(g1, r, Up, perr);
    }
  }

  lemma InvStep(g: Instance, s: Step)
    requires Inv(g)
    ensures Inv(Next(g, s))
  {
    if IsRank(g.parent, s.r) {
      var r, b := s.r, g.b[s.r];
      assert Good(g, r);
      match s {
        case ToMachine(_, i) =>
          if External(i) && Heard(g, r, i) {
            ExternalSteady(g.config[r], b.m, i);
            PutSameStatus(g, r, b.(m := Apply(g.config[r], b.m, i)));
          }
        case Dispatch(_, env) => DispatchKeepsInv(g, r, env.(childPeers := |OnlineChildren(g, r)|));
        case SayHello(_) => PutSameStatus(g, r, b.(up := b.up + [Hello], saidHello := true));
        case SendOther(_) => PutSameStatus(g, r, b.(up := b.up + [Other]));
        case Receive(_, accepted, perr) =>
          if r != 0 && b.up != [] { ReceiveKeepsInv(g, r, accepted, perr); }
        case Lose(_, perr) =>
          if r != 0 && b.status == Up { SetStatusKeepsInv(g, r, Status.Lost, perr); }
        case ParentChange(_, perr) => NotifyKeepsInv(g, r, perr);
      }
    }
  }

  lemma {:induction false} InvHolds(g: Instance, steps: seq<Step>)
    requires Inv(g)
    ensures Inv(Run(g, steps))
    decreases |steps|
  {
    if steps != [] {
      InvHolds(g, steps[..|steps| - 1]);
      InvStep(Run(g, steps[..|steps| - 1]), steps[|steps| - 1]);
    }
  }

  /* ---- the guarantees ---- */

  /** A child comes online only by a hello that its parent handles while not closing. */
  lemma OnlyHelloBringsOnline(g: Instance, s: Step, c: int)
    requires WellFormed(g) && 0 < c < |g.b|
    requires Next(g, s).b[c].status == Up && g.b[c].status != Up
    ensures s.Receive? && s.r == c && s.accepted && g.b[c].up != [] && g.b[c].up[0].Hello?
    ensures !g.b[g.parent[c]].closing
  {
  }

  lemma ClosingIsForGood(g: Instance, s: Step, p: int)
    requires WellFormed(g) && IsRank(g.parent, p) && g.b[p].closing
    ensures Next(g, s).b[p].closing
  {
  }

  /** Once a broker is closing, the set of its online children never grows again. */
  lemma {:induction false} OnlineNeverGrows(g: Instance, steps: seq<Step>, p: int)
    requires WellFormed(g) && IsRank(g.parent, p) && g.b[p].closing
    ensures Run(g, steps).b[p].closing
    ensures OnlineChildren(Run(g, steps), p) <= OnlineChildren(g, p)
    decreases |steps|
  {
    if steps != [] {
      var g1, s := Run(g, steps[..|steps| - 1]), steps[|steps| - 1];
      OnlineNeverGrows(g, steps[..|steps| - 1], p);
      ClosingIsForGood(g1, s, p);
      forall c | c in OnlineChildren(Next(g1, s), p)
        ensures c in OnlineChildren(g1, p)
      {
        if g1.b[c].status != Up {
          OnlyHelloBringsOnline(g1, s, c);
        }
      }
    }
  }

  /** In every run of every tree: a broker that shuts down from RUN has no online child from FINALIZE
      on, and every child it ever accepted and did not lose has reached GOODBYE before. */
  lemma ChildrenFinishFirst(parent: seq<int>, config: seq<Config>, steps: seq<Step>, p: int, g: Instance)
    requires WellFormed(Begin(parent, config)) && IsRank(parent, p)
    requires g == Run(Begin(parent, config), steps)
    requires RUN in g.b[p].m.past && FINALIZE in g.b[p].m.past
    ensures OnlineChildren(g, p) == {}
    ensures forall c :: 0 < c < |parent| && parent[c] == p ==>
      g.b[c].status == Never || g.b[c].status == Status.Lost || GOODBYE in g.b[c].m.past
  {
    assert Inv(Begin(parent, config));
    InvHolds(Begin(parent, config), steps);
    assert Good(g, p);
    forall c | 0 < c < |parent| && parent[c] == p
      ensures g.b[c].status == Never || g.b[c].status == Status.Lost || GOODBYE in g.b[c].m.past
    {
      assert Good(g, c);
      assert c !in OnlineChildren(g, p);
    }
  }

  /** Every link from `a` down to `r` is to a child that was accepted and not lost, and every broker on
      the way that has a child there shut down from RUN. */
  ghost predicate Chain(g: Instance, r: int, a: int)
    requires WellFormed(g) && IsRank(g.parent, r)
    decreases Level(g.parent, r)
  {
    r == a || (r != 0
      && g.b[r].status != Never && g.b[r].status != Status.Lost
      && RUN in g.b[g.parent[r]].m.past && Chain(g, g.parent[r], a))
  }

  /** Shut-down is bottom-up through the whole tree: when a broker has reached FINALIZE, every descendant
      on such a chain is past its own FINALIZE and has reached GOODBYE. */
  lemma {:induction false} SubtreeFinishesFirst(
    parent: seq<int>, config: seq<Config>, steps: seq<Step>, r: int, a: int, g: Instance)
    requires WellFormed(Begin(parent, config)) && IsRank(parent, r) && IsRank(parent, a)
    requires g == Run(Begin(parent, config), steps)
    requires r != a && Chain(g, r, a) && FINALIZE in g.b[a].m.past
    ensures GOODBYE in g.b[r].m.past
    decreases Level(parent, r)
  {
    var p := parent[r];
    if p != a {
      SubtreeFinishesFirst(parent, config, steps, p, a, g);
      assert Inv(Begin(parent, config));
      InvHolds(Begin(parent, config), steps);
      assert Good(g, p);
    }
    ChildrenFinishFirst(parent, config, steps, p, g);
  }
}
