/** One broker's life cycle: the transition table, the entry actions, the checks made of the
    parent's state, and the event queue that drives them. */
module Lifecycle {

  datatype State = NONE | JOIN | INIT | QUORUM | RUN | CLEANUP | SHUTDOWN | FINALIZE | GOODBYE | EXIT

  datatype Event =
    | Start
    | ParentReady | ParentNone | ParentFail
    | Rc1Success | Rc1None | Rc1IgnoreFail | Rc1Fail
    | QuorumFull | QuorumFail
    | Rc2Success | Rc2Fail | Stop | Rc2None
    | CleanupSuccess | CleanupNone | CleanupFail
    | ChildrenComplete | ChildrenNone
    | Rc3Success | Rc3None | Rc3Fail
    | Goodbye

  /** The numeric value of a state, which is what goes over the wire. */
  function Ord(s: State): (n: nat)
    ensures n <= 9
  {
    match s
    case NONE => 0 case JOIN => 1 case INIT => 2 case QUORUM => 3 case RUN => 4
    case CLEANUP => 5 case SHUTDOWN => 6 case FINALIZE => 7 case GOODBYE => 8 case EXIT => 9
  }

  datatype Row = Row(event: Event, current: State, next: State)

  const NEXTTAB: seq<Row> := [
    Row(Start, NONE, JOIN),
    Row(ParentReady, JOIN, INIT),
    Row(ParentNone, JOIN, INIT),
    Row(ParentFail, JOIN, SHUTDOWN),
    Row(Rc1Success, INIT, QUORUM),
    Row(Rc1None, INIT, QUORUM),
    Row(Rc1IgnoreFail, INIT, QUORUM),
    Row(Rc1Fail, INIT, SHUTDOWN),
    Row(QuorumFull, QUORUM, RUN),
    Row(QuorumFail, QUORUM, SHUTDOWN),
    Row(Rc2Success, RUN, CLEANUP),
    Row(Rc2Fail, RUN, CLEANUP),
    Row(Stop, RUN, CLEANUP),
    Row(Rc2None, RUN, RUN),
    Row(CleanupSuccess, CLEANUP, SHUTDOWN),
    Row(CleanupNone, CLEANUP, SHUTDOWN),
    Row(CleanupFail, CLEANUP, SHUTDOWN),
    Row(ChildrenComplete, SHUTDOWN, FINALIZE),
    Row(ChildrenNone, SHUTDOWN, FINALIZE),
    Row(Rc3Success, FINALIZE, GOODBYE),
    Row(Rc3None, FINALIZE, GOODBYE),
    Row(Rc3Fail, FINALIZE, GOODBYE),
    Row(Goodbye, GOODBYE, EXIT)
  ]

  /** The successor of `current`; events that do not apply leave the state alone. */
  function NextState(current: State, event: Event): (next: State)
    ensures next == current || Ord(current) < Ord(next)
  {
    match current
    case NONE => if event.Start? then JOIN else NONE
    case JOIN =>
      if event.ParentReady? || event.ParentNone? then INIT
      else if event.ParentFail? then SHUTDOWN else JOIN
    case INIT =>
      if event.Rc1Success? || event.Rc1None? || event.Rc1IgnoreFail? then QUORUM
      else if event.Rc1Fail? then SHUTDOWN else INIT
    case QUORUM =>
      if event.QuorumFull? then RUN else if event.QuorumFail? then SHUTDOWN else QUORUM
    case RUN => if event.Rc2Success? || event.Rc2Fail? || event.Stop? then CLEANUP else RUN
    case CLEANUP => if event.CleanupSuccess? || event.CleanupNone? || event.CleanupFail? then SHUTDOWN else CLEANUP
    case SHUTDOWN => if event.ChildrenComplete? || event.ChildrenNone? then FINALIZE else SHUTDOWN
    case FINALIZE => if event.Rc3Success? || event.Rc3None? || event.Rc3Fail? then GOODBYE else FINALIZE
    case GOODBYE => if event.Goodbye? then EXIT else GOODBYE
    case EXIT => EXIT
  }

  /** Every event has one row in the table; this is its index. */
  function RowOf(e: Event): (i: nat)
    ensures i < 23
  {
    match e
    case Start => 0
    case ParentReady => 1 case ParentNone => 2 case ParentFail => 3
    case Rc1Success => 4 case Rc1None => 5 case Rc1IgnoreFail => 6 case Rc1Fail => 7
    case QuorumFull => 8 case QuorumFail => 9
    case Rc2Success => 10 case Rc2Fail => 11 case Stop => 12 case Rc2None => 13
    case CleanupSuccess => 14 case CleanupNone => 15 case CleanupFail => 16
    case ChildrenComplete => 17 case ChildrenNone => 18
    case Rc3Success => 19 case Rc3None => 20 case Rc3Fail => 21
    case Goodbye => 22
  }

  lemma RowsAreNumbered(i: nat)
    requires i < |NEXTTAB|
    ensures |NEXTTAB| == 23 && RowOf(NEXTTAB[i].event) == i
    ensures NextState(NEXTTAB[i].current, NEXTTAB[i].event) == NEXTTAB[i].next
  {
  }

  /** The one state in which an event has an effect. */
  function AppliesIn(e: Event): State
  {
    match e
    case Start => NONE
    case ParentReady | ParentNone | ParentFail => JOIN
    case Rc1Success | Rc1None | Rc1IgnoreFail | Rc1Fail => INIT
    case QuorumFull | QuorumFail => QUORUM
    case Rc2Success | Rc2Fail | Stop | Rc2None => RUN
    case CleanupSuccess | CleanupNone | CleanupFail => CLEANUP
    case ChildrenComplete | ChildrenNone => SHUTDOWN
    case Rc3Success | Rc3None | Rc3Fail => FINALIZE
    case Goodbye => GOODBYE
  }

  lemma RowOfEvent(e: Event)
    ensures |NEXTTAB| == 23 && NEXTTAB[RowOf(e)].event == e && NEXTTAB[RowOf(e)].current == AppliesIn(e)
  {
  }

  lemma OtherwiseIgnored(s: State, e: Event)
    ensures AppliesIn(e) != s ==> NextState(s, e) == s
  {
  }

  /** An event that is not for the present state is ignored; one that is moves the broker on by one state,
      or straight to SHUTDOWN if it tells of a failure before RUN.  The end of a missing rc2 leaves it in RUN. */
  lemma EveryEventMovesOn(s: State, e: Event)
    ensures s != AppliesIn(e) ==> NextState(s, e) == s
    ensures e in [ParentFail, Rc1Fail, QuorumFail] ==>
      Ord(AppliesIn(e)) < Ord(RUN) && NextState(AppliesIn(e), e) == SHUTDOWN
    ensures e !in [ParentFail, Rc1Fail, QuorumFail, Rc2None] ==>
      Ord(NextState(AppliesIn(e), e)) == Ord(AppliesIn(e)) + 1
    ensures NextState(AppliesIn(Rc2None), Rc2None) == AppliesIn(Rc2None)
  {
    OtherwiseIgnored(s, e);
  }

  method LookupNext(current: State, event: Event) returns (next: State)
    ensures next == NextState(current, event)
  {
    for i := 0 to |NEXTTAB|
      invariant forall j :: 0 <= j < i ==> NEXTTAB[j].current != current || NEXTTAB[j].event != event
    {
      if NEXTTAB[i].current == current && NEXTTAB[i].event == event {
        RowsAreNumbered(i);
        return NEXTTAB[i].next;
      }
    }
    RowOfEvent(event);
    OtherwiseIgnored(current, event);
    return current;
  }

  /* ---- the machine as a value ---- */

  /** What a broker is configured with: which rc scripts exist, its rank, and the quorum. */
  datatype Config = Config(rank: nat, rc1: bool, rc2: bool, cleanup: bool, rc3: bool, quorumSize: nat)

  /** What the outside world answers while an entry action runs: whether starting a script or
      sending a request fails, and how many children are online. */
  datatype Env = Env(startFails: bool, joinFails: bool, goodbyeFails: bool, childPeers: nat)

  /** `past` is the history of states entered, oldest first. */
  datatype Machine = Machine(
    state: State,
    events: seq<Event>,
    parentState: State,
    parentValid: bool,
    parentError: bool,
    past: seq<State>)

  function Initial(): Machine
  {
    Machine(NONE, [], NONE, false, false, [])
  }

  /** What a broker in JOIN, QUORUM or RUN has to post about its parent. */
  function JoinCheck(m: Machine): seq<Event>
  {
    if m.parentError then [ParentFail]
    else if !m.parentValid then []
    else match m.parentState
      case NONE | JOIN | INIT => []
      case QUORUM | RUN => [ParentReady]
      case CLEANUP | SHUTDOWN | FINALIZE | GOODBYE | EXIT => [ParentFail]
  }

  function QuorumCheck(m: Machine): seq<Event>
  {
    if m.parentError then [QuorumFail]
    else if !m.parentValid then []
    else match m.parentState
      case NONE | JOIN | QUORUM => []
      case INIT | RUN => [QuorumFull]
      case CLEANUP | SHUTDOWN | FINALIZE | GOODBYE | EXIT => [QuorumFail]
  }

  function RunCheck(m: Machine): seq<Event>
  {
    if m.parentError then [ParentFail]
    else if !m.parentValid then []
    else match m.parentState
      case NONE | JOIN | INIT | QUORUM | RUN | CLEANUP => []
      case SHUTDOWN => [Stop]
      case FINALIZE | GOODBYE | EXIT => [ParentFail]
  }

  function ParentCheck(m: Machine): seq<Event>
  {
    if m.state == JOIN then JoinCheck(m)
    else if m.state == QUORUM then QuorumCheck(m)
    else if m.state == RUN then RunCheck(m)
    else []
  }

  /** Events posted by a script that is started, or skipped because it does not exist. */
  function Script(exists_: bool, env: Env, fail: Event, none: Event): seq<Event>
  {
    if exists_ then (if env.startFails then [fail] else []) else [none]
  }

  /** Events posted by the entry action of `m.state`. */
  function EntryEvents(c: Config, m: Machine, env: Env): seq<Event>
  {
    match m.state
    case NONE => []
    case JOIN => if c.rank == 0 then [ParentNone] else JoinCheck(m)
    case INIT => Script(c.rc1, env, Rc1Fail, Rc1None)
    case QUORUM => if env.joinFails then [QuorumFail] else if c.rank > 0 then QuorumCheck(m) else []
    case RUN =>
      if c.rc2 then (if env.startFails then [Rc2Fail] else [])
      else if c.rank > 0 then RunCheck(m) else [Rc2None]
    case CLEANUP => Script(c.cleanup, env, CleanupFail, CleanupNone)
    case SHUTDOWN => if env.childPeers == 0 then [ChildrenNone] else []
    case FINALIZE => Script(c.rc3, env, Rc3Fail, Rc3None)
    case GOODBYE => if c.rank > 0 && env.goodbyeFails then [Goodbye] else []
    case EXIT => []
  }

  function PostEvent(m: Machine, e: Event): Machine
  {
    m.(events := m.events + [e])
  }

  function PostAll(m: Machine, es: seq<Event>): Machine
  {
    m.(events := m.events + es)
  }

  function Enter(c: Config, m: Machine, next: State, env: Env): Machine
  {
    var m1 := m.(state := next, past := m.past + [next]);
    PostAll(m1, EntryEvents(c, m1, env))
  }

  /** Take one event off the queue and act on it. */
  function Dispatch(c: Config, m: Machine, env: Env): Machine
  {
    if m.events == [] then m else
      var m1 := m.(events := m.events[1..]);
      var next := NextState(m.state, m.events[0]);
      if next == m.state then m1 else Enter(c, m1, next, env)
  }

  /** A state report from the parent. */
  function ParentUpdate(m: Machine, s: State): Machine
  {
    var m1 := m.(parentState := s, parentValid := true);
    PostAll(m1, ParentCheck(m1))
  }

  function ParentLost(m: Machine): Machine
  {
    m.(parentError := true)
  }

  /** The overlay reports a change: what is posted depends on the state. */
  function OverlayChange(m: Machine, parentError: bool, childPeers: nat): Machine
  {
    match m.state
    case JOIN => if parentError then PostEvent(m, ParentFail) else m
    case RUN => if parentError then PostEvent(m, Stop) else m
    case SHUTDOWN => if childPeers == 0 then PostEvent(m, ChildrenComplete) else m
    case _ => m
  }

  /** Rank 0 learns who is online. */
  function OnlineReport(c: Config, m: Machine, count: nat): Machine
  {
    if count >= c.quorumSize && m.state == QUORUM then PostEvent(m, QuorumFull) else m
  }

  /** A deadly signal. */
  function Kill(c: Config, m: Machine): Machine
  {
    match m.state
    case JOIN => PostEvent(m, ParentFail)
    case QUORUM => PostEvent(m, QuorumFail)
    case RUN => if c.rc2 then m else PostEvent(m, Stop)
    case _ => m
  }

  /** Everything that can happen to one machine.  `Post` stands for the events that other parts
      of the broker post: script completions, the start event, a shutdown request. */
  datatype Input =
    | Post(event: Event)
    | Update(state: State)
    | Lost
    | Overlay(parentError: bool, childPeers: nat)
    | Online(count: nat)
    | Signal
    | Process(env: Env)

  function Apply(c: Config, m: Machine, i: Input): Machine
  {
    match i
    case Post(e) => PostEvent(m, e)
    case Update(s) => ParentUpdate(m, s)
    case Lost => ParentLost(m)
    case Overlay(perr, n) => OverlayChange(m, perr, n)
    case Online(n) => OnlineReport(c, m, n)
    case Signal => Kill(c, m)
    case Process(env) => Dispatch(c, m, env)
  }

  function RunFrom(c: Config, m: Machine, inputs: seq<Input>): Machine
    decreases |inputs|
  {
    if inputs == [] then m else Apply(c, RunFrom(c, m, inputs[..|inputs| - 1]), inputs[|inputs| - 1])
  }

  /* ---- the states entered ---- */

  ghost predicate Rising(states: seq<State>)
  {
    forall i, j :: 0 <= i < j < |states| ==> Ord(states[i]) < Ord(states[j])
  }

  /** The history rises strictly, starts after NONE and ends at the current state. */
  ghost predicate PastIsSound(m: Machine)
  {
    && Rising(m.past)
    && (forall i :: 0 <= i < |m.past| ==> Ord(m.past[i]) > 0)
    && m.state == (if m.past == [] then NONE else m.past[|m.past| - 1])
  }

  lemma EnterSound(m: Machine, next: State)
    requires PastIsSound(m) && Ord(m.state) < Ord(next)
    ensures PastIsSound(m.(state := next, past := m.past + [next]))
  {
    var past := m.past + [next];
    forall j, k | 0 <= j < k < |past|
      ensures Ord(past[j]) < Ord(past[k])
    {
      if k == |past| - 1 && j < k - 1 {
        assert Ord(past[j]) < Ord(past[k - 1]);
      }
    }
  }

  lemma PastStaysSoundInOneStep(c: Config, m: Machine, i: Input)
    requires PastIsSound(m)
    ensures PastIsSound(Apply(c, m, i))
  {
    if i.Process? && m.events != [] {
      var next := NextState(m.state, m.events[0]);
      if next != m.state {
        EnterSound(m, next);
        assert Apply(c, m, i).state == next && Apply(c, m, i).past == m.past + [next];
      }
    } else {
      assert Apply(c, m, i).state == m.state && Apply(c, m, i).past == m.past;
    }
  }

  lemma {:induction false} PastStaysSound(c: Config, m: Machine, inputs: seq<Input>)
    requires PastIsSound(m)
    ensures PastIsSound(RunFrom(c, m, inputs))
    decreases |inputs|
  {
    if inputs != [] {
      PastStaysSound(c, m, inputs[..|inputs| - 1]);
      PastStaysSoundInOneStep(c, RunFrom(c, m, inputs[..|inputs| - 1]), inputs[|inputs| - 1]);
    }
  }

  lemma {:induction false} RisingIsShort(states: seq<State>, n: nat)
    requires Rising(states)
    requires forall i :: 0 <= i < |states| ==> 0 < Ord(states[i]) <= n
    ensures |states| <= n
    decreases |states|
  {
    if states != [] {
      var last := |states| - 1;
      RisingIsShort(states[..last], Ord(states[last]) - 1);
    }
  }

  /** In every run the states entered rise strictly, so no entry action runs twice and there are
      at most nine transitions. */
  lemma EachStateIsEnteredOnce(c: Config, inputs: seq<Input>)
    ensures Rising(RunFrom(c, Initial(), inputs).past)
    ensures |RunFrom(c, Initial(), inputs).past| <= 9
    ensures RunFrom(c, Initial(), inputs).state in [NONE] + RunFrom(c, Initial(), inputs).past
  {
    PastStaysSound(c, Initial(), inputs);
    RisingIsShort(RunFrom(c, Initial(), inputs).past, 9);
  }

  /* ---- no lost parent transition ---- */

  /** A broker in state `s` whose parent is in state `p` has to move to `t`. */
  predicate CallsFor(s: State, p: State, t: State)
  {
    || (s == JOIN && Ord(QUORUM) <= Ord(p) <= Ord(RUN) && t == INIT)
    || (s == JOIN && Ord(RUN) < Ord(p) && t == SHUTDOWN)
    || (s == QUORUM && p == RUN && t == RUN)
    || (s == QUORUM && Ord(RUN) < Ord(p) && t == SHUTDOWN)
    || (s == RUN && p == SHUTDOWN && t == CLEANUP)
  }

  /** Some event leads from `s` to `t`. */
  predicate LeadsTo(events: seq<Event>, s: State, t: State)
  {
    exists i :: 0 <= i < |events| && NextState(s, events[i]) == t
  }

  /** Whenever the recorded parent state calls for a move, an event that makes it is queued. */
  ghost predicate NothingLost(m: Machine)
  {
    m.parentValid && !m.parentError ==>
      forall t :: CallsFor(m.state, m.parentState, t) ==> LeadsTo(m.events, m.state, t)
  }

  /** A look at the parent posts an event exactly for a move that its state calls for; in QUORUM it also
      takes a parent in INIT for one that is in RUN. */
  lemma CheckIsExact(m: Machine)
    requires m.parentValid && !m.parentError && (m.state == QUORUM ==> m.parentState != INIT)
    ensures forall t :: t != m.state ==>
      (LeadsTo(ParentCheck(m), m.state, t) <==> CallsFor(m.state, m.parentState, t))
    ensures |ParentCheck(m)| <= 1
  {
    forall t | CallsFor(m.state, m.parentState, t)
      ensures LeadsTo(ParentCheck(m), m.state, t)
    {
      assert NextState(m.state, ParentCheck(m)[0]) == t;
    }
  }

  /** Once the parent is known to have failed, a look at it calls for the move to SHUTDOWN from JOIN or QUORUM;
      what it posts in RUN is ignored there. */
  lemma FailedParentCheck(m: Machine)
    requires m.parentError && (m.state == JOIN || m.state == QUORUM || m.state == RUN)
    ensures |ParentCheck(m)| == 1
    ensures NextState(m.state, ParentCheck(m)[0]) == if m.state == RUN then RUN else SHUTDOWN
  {
  }

  lemma PostedLeads(before: seq<Event>, more: seq<Event>, s: State, t: State)
    ensures LeadsTo(before + more, s, t) <==> LeadsTo(before, s, t) || LeadsTo(more, s, t)
  {
    var all := before + more;
    forall i | 0 <= i < |before|
      ensures all[i] == before[i]
    {
    }
    forall i | 0 <= i < |more|
      ensures all[|before| + i] == more[i]
    {
    }
  }

  /** After a look at the parent every move that its state calls for is queued. */
  lemma CheckedLosesNothing(m: Machine, before: seq<Event>)
    requires m.events == before + ParentCheck(m)
    ensures NothingLost(m)
  {
    if m.parentValid && !m.parentError {
      forall t | CallsFor(m.state, m.parentState, t)
        ensures LeadsTo(m.events, m.state, t)
      {
        assert NextState(m.state, ParentCheck(m)[0]) == t;
        PostedLeads(before, ParentCheck(m), m.state, t);
      }
    }
  }

  /** The two ways to enter a state without looking at the parent, when the parent calls for a move that is
      not yet queued: into QUORUM when asking to join the online group fails, and into RUN with an rc2
      script that starts. */
  predicate Loses(c: Config, m: Machine, i: Input)
  {
    i.Process? && m.events != [] && m.parentValid && !m.parentError &&
    var next := NextState(m.state, m.events[0]);
    next != m.state &&
    (|| (next == QUORUM && i.env.joinFails && m.parentState == RUN && !LeadsTo(m.events[1..], QUORUM, RUN))
     || (next == RUN && c.rc2 && !i.env.startFails && m.parentState == SHUTDOWN
         && !LeadsTo(m.events[1..], RUN, CLEANUP)))
  }

  lemma QueueShrinks(m: Machine)
    requires m.events != [] && NextState(m.state, m.events[0]) == m.state && NothingLost(m)
    ensures NothingLost(m.(events := m.events[1..]))
  {
    assert m.events == [m.events[0]] + m.events[1..];
    forall t | CallsFor(m.state, m.parentState, t) && LeadsTo(m.events, m.state, t)
      ensures LeadsTo(m.events[1..], m.state, t)
    {
      PostedLeads([m.events[0]], m.events[1..], m.state, t);
    }
  }

  /** What is posted on entering a state without a look at the parent. */
  lemma EntryWithoutCheck(c: Config, m: Machine, env: Env, before: seq<Event>)
    requires c.rank > 0 && m.events == before + EntryEvents(c, m.(events := before), env)
    requires m.parentValid && !m.parentError
    requires (m.state == QUORUM && env.joinFails) || (m.state == RUN && c.rc2)
    ensures NothingLost(m) <==>
      && (m.state == QUORUM && m.parentState == RUN ==> LeadsTo(before, QUORUM, RUN))
      && (m.state == RUN && !env.startFails && m.parentState == SHUTDOWN ==> LeadsTo(before, RUN, CLEANUP))
  {
    var more := EntryEvents(c, m.(events := before), env);
    assert forall t :: LeadsTo(m.events, m.state, t) <==> LeadsTo(before, m.state, t) || LeadsTo(more, m.state, t) by {
      forall t
        ensures LeadsTo(m.events, m.state, t) <==> LeadsTo(before, m.state, t) || LeadsTo(more, m.state, t)
      {
        PostedLeads(before, more, m.state, t);
      }
    }
    assert m.state == QUORUM ==> more == [QuorumFail] && NextState(QUORUM, more[0]) == SHUTDOWN;
    assert m.state == RUN && env.startFails ==> more == [Rc2Fail] && NextState(RUN, more[0]) == CLEANUP;
    assert CallsFor(QUORUM, RUN, RUN) && CallsFor(RUN, SHUTDOWN, CLEANUP);
  }

  lemma EntryLosesIff(c: Config, m: Machine, env: Env)
    requires c.rank > 0
    requires m.events != [] && NextState(m.state, m.events[0]) != m.state
    ensures NothingLost(Dispatch(c, m, env)) <==> !Loses(c, m, Process(env))
  {
    var next := NextState(m.state, m.events[0]);
    var m1 := m.(events := m.events[1..], state := next, past := m.past + [next]);
    var m2 := Dispatch(c, m, env);
    assert m2 == m1.(events := m1.events + EntryEvents(c, m1, env));
    assert m2.(events := m1.events) == m1;
    if m.parentValid && !m.parentError {
      if (next == QUORUM && env.joinFails) || (next == RUN && c.rc2) {
        EntryWithoutCheck(c, m2, env, m1.events);
      } else if next == JOIN || next == QUORUM || next == RUN {
        assert EntryEvents(c, m1, env) == ParentCheck(m2);
        CheckedLosesNothing(m2, m1.events);
      }
    }
  }

  lemma ReportLosesNothing(m: Machine, s: State)
    ensures NothingLost(ParentUpdate(m, s))
  {
    var m1 := ParentUpdate(m, s);
    assert m1.events == m.events + ParentCheck(m1);
    CheckedLosesNothing(m1, m.events);
  }

  lemma PostingLosesNothing(m: Machine, more: seq<Event>)
    requires NothingLost(m)
    ensures NothingLost(PostAll(m, more))
  {
    forall t | LeadsTo(m.events, m.state, t)
      ensures LeadsTo(m.events + more, m.state, t)
    {
      PostedLeads(m.events, more, m.state, t);
    }
  }

  /** A step loses a parent transition exactly if it is one of those two. */
  lemma StepLosesIff(c: Config, m: Machine, i: Input)
    requires c.rank > 0 && NothingLost(m)
    ensures NothingLost(Apply(c, m, i)) <==> !Loses(c, m, i)
  {
    if i.Process? {
      if m.events != [] {
        if NextState(m.state, m.events[0]) == m.state {
          QueueShrinks(m);
        } else {
          EntryLosesIff(c, m, i.env);
        }
      }
    } else if i.Update? {
      ReportLosesNothing(m, i.state);
    } else if !i.Lost? {
      var m1 := Apply(c, m, i);
      assert m1 == PostAll(m, m1.events[|m.events|..]);
      PostingLosesNothing(m, m1.events[|m.events|..]);
    }
  }

  /** No step of the run is one of those two. */
  ghost predicate LosesNowhere(c: Config, inputs: seq<Input>)
  {
    forall k :: 0 <= k < |inputs| ==> !Loses(c, RunFrom(c, Initial(), inputs[..k]), inputs[k])
  }

  ghost predicate NothingLostIn(c: Config, inputs: seq<Input>)
  {
    forall k :: 0 <= k <= |inputs| ==> NothingLost(RunFrom(c, Initial(), inputs[..k]))
  }

  lemma {:induction false} NothingLostUpTo(c: Config, inputs: seq<Input>, n: nat)
    requires c.rank > 0 && LosesNowhere(c, inputs) && n <= |inputs|
    ensures NothingLost(RunFrom(c, Initial(), inputs[..n]))
  {
    if n > 0 {
      NothingLostUpTo(c, inputs, n - 1);
      assert inputs[..n][..n - 1] == inputs[..n - 1];
      var m := RunFrom(c, Initial(), inputs[..n - 1]);
      StepLosesIff(c, m, inputs[n - 1]);
    }
  }

  lemma RunOneMore(c: Config, inputs: seq<Input>, k: nat)
    requires k < |inputs|
    ensures RunFrom(c, Initial(), inputs[..k + 1]) == Apply(c, RunFrom(c, Initial(), inputs[..k]), inputs[k])
  {
    assert inputs[..k + 1][..k] == inputs[..k];
  }

  lemma LossShows(c: Config, inputs: seq<Input>, k: nat)
    requires c.rank > 0 && k < |inputs| && Loses(c, RunFrom(c, Initial(), inputs[..k]), inputs[k])
    ensures !NothingLostIn(c, inputs)
  {
    var m := RunFrom(c, Initial(), inputs[..k]);
    RunOneMore(c, inputs, k);
    if NothingLost(m) {
      StepLosesIff(c, m, inputs[k]);
      assert !NothingLost(RunFrom(c, Initial(), inputs[..k + 1]));
    }
  }

  /** In every run, with any interleaving of parent reports and queued events: at every moment every move
      the recorded parent state calls for is queued, exactly if no step of the run enters QUORUM with a
      failed join, or RUN with an rc2 script, over a parent that has moved on. */
  lemma RunLosesNothingIff(c: Config, inputs: seq<Input>)
    requires c.rank > 0
    ensures NothingLostIn(c, inputs) <==> LosesNowhere(c, inputs)
  {
    if LosesNowhere(c, inputs) {
      forall k | 0 <= k <= |inputs|
        ensures NothingLost(RunFrom(c, Initial(), inputs[..k]))
      {
        NothingLostUpTo(c, inputs, k);
      }
    } else {
      var k :| 0 <= k < |inputs| && Loses(c, RunFrom(c, Initial(), inputs[..k]), inputs[k]);
      LossShows(c, inputs, k);
    }
  }

  /* ---- the same, from what the broker is given ---- */

  /** The states the parent reports, in order. */
  function Reported(inputs: seq<Input>): seq<State>
  {
    if inputs == [] then [] else
      var n := |inputs| - 1;
      Reported(inputs[..n]) + (if inputs[n].Update? then [inputs[n].state] else [])
  }

  ghost predicate Succeeds(s: State, t: State)
  {
    t != s && exists e :: NextState(s, e) == t
  }

  /** The parent is monitored up to SHUTDOWN only. */
  predicate WithinStream(i: Input)
  {
    i.Update? ==> Ord(i.state) <= Ord(SHUTDOWN)
  }

  ghost predicate StreamRun(inputs: seq<Input>)
  {
    forall i :: 0 <= i < |inputs| ==> WithinStream(inputs[i])
  }

  /** The parent's reports are those of a broker that goes through the states one by one. */
  ghost predicate ParentStream(inputs: seq<Input>)
  {
    StreamRun(inputs) && OneByOne(Reported(inputs))
  }

  predicate JoinSucceeds(i: Input)
  {
    i.Process? ==> !i.env.joinFails
  }

  ghost predicate JoinsSucceed(inputs: seq<Input>)
  {
    forall i :: 0 <= i < |inputs| ==> JoinSucceeds(inputs[i])
  }

  /** `m` is where a run with a real parent has come, and what it last heard of the parent. */
  ghost predicate Traced(c: Config, inputs: seq<Input>, m: Machine)
  {
    && RunFrom(c, Initial(), inputs) == m && ParentStream(inputs)
    && var rs := Reported(inputs);
       if rs == [] then !m.parentValid else m.parentValid && rs[|rs| - 1] == m.parentState
  }

  ghost predicate OneByOne(rs: seq<State>)
  {
    forall i :: 0 <= i < |rs| - 1 ==> Succeeds(rs[i], rs[i + 1])
  }

  lemma StreamGrows(rs: seq<State>, s: State)
    requires OneByOne(rs) && (rs != [] ==> Succeeds(rs[|rs| - 1], s))
    ensures OneByOne(rs + [s])
  {
    var rs1 := rs + [s];
    forall k | 0 <= k < |rs1| - 1
      ensures Succeeds(rs1[k], rs1[k + 1])
    {
      if k < |rs| - 1 {
        assert Succeeds(rs[k], rs[k + 1]);
      }
    }
  }

  /** Extends a run by one input. */
  lemma Extend(c: Config, inputs: seq<Input>, m: Machine, i: Input) returns (more: seq<Input>, m1: Machine)
    requires Traced(c, inputs, m) && WithinStream(i)
    requires i.Update? && m.parentValid ==> Succeeds(m.parentState, i.state)
    ensures m1 == Apply(c, m, i) && Traced(c, more, m1)
    ensures JoinsSucceed(inputs) && JoinSucceeds(i) ==> JoinsSucceed(more)
  {
    more := inputs + [i];
    m1 := Apply(c, m, i);
    assert more[..|inputs|] == inputs;
    ParentHeard(c, m, i);
    if i.Update? {
      StreamGrows(Reported(inputs), i.state);
    }
  }

  lemma ParentHeard(c: Config, m: Machine, i: Input)
    ensures i.Update? ==> Apply(c, m, i).parentValid && Apply(c, m, i).parentState == i.state
    ensures !i.Update? ==>
      Apply(c, m, i).parentValid == m.parentValid && Apply(c, m, i).parentState == m.parentState
  {
  }

  /** Works off an event that takes the broker to `next`. */
  lemma Take(c: Config, inputs: seq<Input>, m: Machine, next: State, env: Env)
    returns (more: seq<Input>, m1: Machine)
    requires Traced(c, inputs, m) && m.events != [] && NextState(m.state, m.events[0]) == next && next != m.state
    ensures m1 == Enter(c, m.(events := m.events[1..]), next, env) && Traced(c, more, m1)
    ensures JoinsSucceed(inputs) && !env.joinFails ==> JoinsSucceed(more)
  {
    more, m1 := Extend(c, inputs, m, Process(env));
  }

  /** The parent goes on to `s` by the event `e`, and reports it. */
  lemma Hear(c: Config, inputs: seq<Input>, m: Machine, s: State, e: Event) returns (more: seq<Input>, m1: Machine)
    requires Traced(c, inputs, m) && Ord(s) <= Ord(SHUTDOWN)
    requires m.parentValid ==> NextState(m.parentState, e) == s && s != m.parentState
    ensures m1 == ParentUpdate(m, s) && Traced(c, more, m1)
    ensures JoinsSucceed(inputs) ==> JoinsSucceed(more)
  {
    more, m1 := Extend(c, inputs, m, Update(s));
  }

  const CALM := Env(false, false, false, 0)

  lemma ToJoin(c: Config) returns (inputs: seq<Input>, m: Machine)
    requires c.rank > 0
    ensures Traced(c, inputs, m) && JoinsSucceed(inputs)
    ensures m == Machine(JOIN, [], NONE, false, false, [JOIN])
  {
    inputs, m := [], Initial();
    inputs, m := Extend(c, inputs, m, Post(Start));
    assert m.events == [Start];
    inputs, m := Take(c, inputs, m, JOIN, CALM);
  }

  /** A broker with this history whose parent is in state `p`. */
  function HasHeard(past: seq<State>, events: seq<Event>, p: State): Machine
    requires past != []
  {
    Machine(past[|past| - 1], events, p, true, false, past)
  }

  lemma EnterFrom(c: Config, past: seq<State>, p: State, next: State, env: Env)
    requires past != [] && c.rank > 0
    ensures Enter(c, HasHeard(past, [], p), next, env)
         == HasHeard(past + [next], EntryEvents(c, HasHeard(past + [next], [], p), env), p)
  {
  }

  lemma ToReady(c: Config) returns (inputs: seq<Input>, m: Machine)
    requires c.rank > 0
    ensures Traced(c, inputs, m) && JoinsSucceed(inputs)
    ensures m == HasHeard([JOIN], [ParentReady], QUORUM)
  {
    inputs, m := ToJoin(c);
    inputs, m := Hear(c, inputs, m, QUORUM, Rc1Success);
  }

  /** A run that brings a broker to INIT with its parent in QUORUM. */
  lemma ToInit(c: Config) returns (inputs: seq<Input>, m: Machine)
    requires c.rank > 0
    ensures Traced(c, inputs, m) && JoinsSucceed(inputs)
    ensures m == HasHeard([JOIN, INIT], if c.rc1 then [] else [Rc1None], QUORUM)
  {
    inputs, m := ToReady(c);
    inputs, m := Take(c, inputs, m, INIT, CALM);
    assert [ParentReady][1..] == [] && [JOIN] + [INIT] == [JOIN, INIT];
    EnterFrom(c, [JOIN], QUORUM, INIT, CALM);
  }

  /** A run that leaves a broker in INIT with rc1 done. */
  lemma ToInitDone(c: Config) returns (inputs: seq<Input>, m: Machine)
    requires c.rank > 0
    ensures Traced(c, inputs, m) && JoinsSucceed(inputs)
    ensures m == HasHeard([JOIN, INIT], [if c.rc1 then Rc1Success else Rc1None], QUORUM)
  {
    inputs, m := ToInit(c);
    if c.rc1 {
      inputs, m := Extend(c, inputs, m, Post(Rc1Success));
    }
  }

  /** A broker whose request to join fails on entering QUORUM does not look at its parent: when the parent
      has reported RUN before, that is not acted on. */
  lemma RunLostWithoutJoin(c: Config) returns (inputs: seq<Input>)
    requires c.rank > 0
    ensures ParentStream(inputs) && !NothingLost(RunFrom(c, Initial(), inputs))
  {
    var m: Machine;
    inputs, m := ToInitDone(c);
    inputs, m := Hear(c, inputs, m, RUN, QuorumFull);
    assert m == HasHeard([JOIN, INIT], [if c.rc1 then Rc1Success else Rc1None], RUN);
    inputs, m := Take(c, inputs, m, QUORUM, CALM.(joinFails := true));
    assert m.events == [QuorumFail];
    assert CallsFor(m.state, m.parentState, RUN) && !LeadsTo(m.events, m.state, RUN);
  }

  lemma ToQuorum(c: Config) returns (inputs: seq<Input>, m: Machine)
    requires c.rank > 0
    ensures Traced(c, inputs, m) && JoinsSucceed(inputs)
    ensures m == HasHeard([JOIN, INIT, QUORUM], [], QUORUM)
  {
    inputs, m := ToInitDone(c);
    inputs, m := Take(c, inputs, m, QUORUM, CALM);
    assert [JOIN, INIT] + [QUORUM] == [JOIN, INIT, QUORUM];
    EnterFrom(c, [JOIN, INIT], QUORUM, QUORUM, CALM);
  }

  /** A run to QUORUM in which the parent has gone on to SHUTDOWN meanwhile. */
  lemma ToLateQuorum(c: Config) returns (inputs: seq<Input>, m: Machine)
    requires c.rank > 0
    ensures Traced(c, inputs, m) && JoinsSucceed(inputs)
    ensures m == HasHeard([JOIN, INIT, QUORUM], [QuorumFull, QuorumFail, QuorumFail], SHUTDOWN)
  {
    inputs, m := ToQuorum(c);
    inputs, m := Hear(c, inputs, m, RUN, QuorumFull);
    assert m == HasHeard([JOIN, INIT, QUORUM], [QuorumFull], RUN);
    inputs, m := Hear(c, inputs, m, CLEANUP, Stop);
    assert m == HasHeard([JOIN, INIT, QUORUM], [QuorumFull, QuorumFail], CLEANUP);
    inputs, m := Hear(c, inputs, m, SHUTDOWN, CleanupNone);
  }

  /** A broker with an rc2 script of its own does not look at its parent on entering RUN. */
  lemma ShutdownLostWithScript(c: Config) returns (inputs: seq<Input>)
    requires c.rank > 0 && c.rc2
    ensures ParentStream(inputs) && JoinsSucceed(inputs) && !NothingLost(RunFrom(c, Initial(), inputs))
  {
    var m: Machine;
    inputs, m := ToLateQuorum(c);
    inputs, m := Take(c, inputs, m, RUN, CALM);
    assert m.events == [QuorumFail, QuorumFail];
    assert CallsFor(m.state, m.parentState, CLEANUP) && !LeadsTo(m.events, m.state, CLEANUP);
  }

  lemma NothingLostFrom(c: Config, inputs: seq<Input>)
    requires c.rank > 0 && !c.rc2 && JoinsSucceed(inputs)
    ensures NothingLost(RunFrom(c, Initial(), inputs))
  {
    assert forall k :: 0 <= k < |inputs| ==> JoinSucceeds(inputs[k]);
    RunLosesNothingIff(c, inputs);
    assert inputs[..|inputs|] == inputs;
  }

  /** Over all runs with a real parent, in which joining the online group may fail or may not: a broker
      never loses a parent transition exactly if joining does not fail and it has no rc2 script. */
  lemma NothingIsLostIff(c: Config, joinMayFail: bool)
    requires c.rank > 0
    ensures (forall inputs :: ParentStream(inputs) && (joinMayFail || JoinsSucceed(inputs)) ==>
               NothingLost(RunFrom(c, Initial(), inputs)))
       <==> !c.rc2 && !joinMayFail
  {
    if c.rc2 {
      var inputs := ShutdownLostWithScript(c);
    } else if joinMayFail {
      var inputs := RunLostWithoutJoin(c);
    } else {
      forall inputs | ParentStream(inputs) && JoinsSucceed(inputs)
        ensures NothingLost(RunFrom(c, Initial(), inputs))
      {
        NothingLostFrom(c, inputs);
      }
    }
  }

  /* ---- getting to the end ---- */

  /** The scripts of a broker's life, and the state each runs in. */
  datatype Rc = RC1 | RC2 | RC_CLEANUP | RC3

  function RunsIn(rc: Rc): State
  {
    match rc
    case RC1 => INIT case RC2 => RUN case RC_CLEANUP => CLEANUP case RC3 => FINALIZE
  }

  /** What is posted when a script ends. */
  function ScriptEnd(rc: Rc, ok: bool, recovery: bool): Event
  {
    match rc
    case RC1 => if ok then Rc1Success else if recovery then Rc1IgnoreFail else Rc1Fail
    case RC2 => if ok then Rc2Success else Rc2Fail
    case RC_CLEANUP => if ok then CleanupSuccess else CleanupFail
    case RC3 => if ok then Rc3Success else Rc3Fail
  }

  /** The end of a script takes the broker out of the state it ran in: on by one, or from INIT to SHUTDOWN
      if rc1 failed and the broker is not in recovery mode. */
  lemma ScriptEndMovesOn(rc: Rc, ok: bool, recovery: bool)
    ensures var s, t := RunsIn(rc), NextState(RunsIn(rc), ScriptEnd(rc, ok, recovery));
      if rc.RC1? && !ok && !recovery then t == SHUTDOWN else Ord(t) == Ord(s) + 1
  {
  }

  predicate LeadsOn(events: seq<Event>, s: State)
  {
    exists i :: 0 <= i < |events| && NextState(s, events[i]) != s
  }

  /** A broker that entered state `s` in the environment `env` waits for something outside. */
  predicate WaitsIn(c: Config, s: State, env: Env)
  {
    match s
    case NONE => true
    case JOIN => c.rank > 0
    case INIT => c.rc1 && !env.startFails
    case QUORUM => !env.joinFails
    case RUN => c.rc2 ==> !env.startFails
    case CLEANUP => c.cleanup && !env.startFails
    case SHUTDOWN => env.childPeers > 0
    case FINALIZE => c.rc3 && !env.startFails
    case GOODBYE => c.rank > 0 ==> !env.goodbyeFails
    case EXIT => false
  }

  predicate Ends(rc: Rc, i: Input)
  {
    exists ok, recovery :: i == Post(ScriptEnd(rc, ok, recovery))
  }

  /** What a broker in state `s` waits for: to be started; a parent in QUORUM, then in RUN, then shutting down
      or gone; at rank 0 the quorum, then to be told to stop; the end of a script; that the last child is
      gone; and the answer to its goodbye. */
  predicate Awaited(c: Config, s: State, i: Input)
  {
    match s
    case NONE => i == Post(Start)
    case JOIN => i.Update? && Ord(QUORUM) <= Ord(i.state)
    case INIT => Ends(RC1, i)
    case QUORUM => if c.rank == 0 then i.Online? && i.count >= c.quorumSize else i.Update? && Ord(RUN) <= Ord(i.state)
    case RUN =>
      if c.rc2 then Ends(RC2, i)
      else if c.rank == 0 then i.Signal? || i == Post(Stop)
      else i == Update(SHUTDOWN) || (i.Overlay? && i.parentError)
    case CLEANUP => Ends(RC_CLEANUP, i)
    case SHUTDOWN => i.Overlay? && i.childPeers == 0
    case FINALIZE => Ends(RC3, i)
    case GOODBYE => i == Post(Goodbye)
    case EXIT => false
  }

  /** The environment in which a broker entered the state it is in. */
  function EntryEnv(c: Config, inputs: seq<Input>): Env
  {
    if inputs == [] then CALM else
      var n := |inputs| - 1;
      var m := RunFrom(c, Initial(), inputs[..n]);
      if inputs[n].Process? && Apply(c, m, inputs[n]).state != m.state then inputs[n].env else EntryEnv(c, inputs[..n])
  }

  /** What comes next when the broker works off its queue, and what it waits for does happen. */
  ghost predicate Comes(c: Config, m: Machine, env: Env, i: Input)
  {
    if m.events != [] then i.Process? else WaitsIn(c, m.state, env) && Awaited(c, m.state, i)
  }

  ghost predicate Diligent(c: Config, inputs: seq<Input>)
    decreases |inputs|
  {
    inputs == [] ||
    var n := |inputs| - 1;
    var before := inputs[..n];
    Diligent(c, before) && Comes(c, RunFrom(c, Initial(), before), EntryEnv(c, before), inputs[n])
  }

  /** An upper bound on the inputs to come. */
  function Ahead(m: Machine): nat
  {
    4 * (9 - Ord(m.state)) + |m.events| + if LeadsOn(m.events, m.state) then 0 else 2
  }

  /** Something is queued that takes the broker on, or it waits for something outside. */
  ghost predicate Alive(c: Config, m: Machine, env: Env)
  {
    !m.parentError && (LeadsOn(m.events, m.state) || m.state == EXIT || WaitsIn(c, m.state, env))
  }

  lemma LeadsOnInPart(before: seq<Event>, more: seq<Event>, s: State)
    ensures LeadsOn(before + more, s) <==> LeadsOn(before, s) || LeadsOn(more, s)
  {
    var all := before + more;
    assert forall i :: 0 <= i < |before| ==> all[i] == before[i];
    assert forall i :: 0 <= i < |more| ==> all[|before| + i] == more[i];
  }

  /** Entering a state posts at most one event, which takes the broker on if there is nothing to wait for. */
  lemma EntryLeadsOn(c: Config, m: Machine, env: Env)
    requires !m.parentError
    ensures |EntryEvents(c, m, env)| <= 1
    ensures LeadsOn(EntryEvents(c, m, env), m.state) || m.state == EXIT || WaitsIn(c, m.state, env)
  {
    var es := EntryEvents(c, m, env);
    if es != [] && NextState(m.state, es[0]) != m.state {
      assert LeadsOn(es, m.state);
    }
  }

  /** On entering a state, an event that takes the broker on is posted exactly if there is nothing to wait for;
      but with a parent to look at, and nothing else to do first, it is whatever the parent calls for. */
  lemma EntryIsExact(c: Config, m: Machine, env: Env)
    requires m.state != EXIT
    ensures if c.rank > 0 && (m.state == JOIN || (m.state == QUORUM && !env.joinFails) || (m.state == RUN && !c.rc2))
      then EntryEvents(c, m, env) == ParentCheck(m)
      else LeadsOn(EntryEvents(c, m, env), m.state) <==> !WaitsIn(c, m.state, env)
  {
    var es := EntryEvents(c, m, env);
    assert es != [] && NextState(m.state, es[0]) != m.state ==> LeadsOn(es, m.state);
  }

  lemma ProcessGoesOn(c: Config, m: Machine, env: Env, e: Env)
    requires Alive(c, m, env) && m.events != []
    ensures var m1 := Dispatch(c, m, e);
      Alive(c, m1, if m1.state == m.state then env else e) && Ahead(m1) < Ahead(m)
  {
    var rest, next := m.events[1..], NextState(m.state, m.events[0]);
    assert m.events == [m.events[0]] + rest;
    LeadsOnInPart([m.events[0]], rest, m.state);
    if next != m.state {
      var m1 := m.(events := rest, state := next, past := m.past + [next]);
      EntryLeadsOn(c, m1, e);
      LeadsOnInPart(rest, EntryEvents(c, m1, e), next);
    }
  }

  lemma AwaitedGoesOn(c: Config, m: Machine, env: Env, i: Input)
    requires Alive(c, m, env) && m.events == [] && Comes(c, m, env, i)
    ensures var m1 := Apply(c, m, i); Alive(c, m1, env) && m1.state == m.state && Ahead(m1) < Ahead(m)
  {
    var m1 := Apply(c, m, i);
    assert |m1.events| == 1 && NextState(m.state, m1.events[0]) != m.state;
  }

  lemma {:induction false} StaysAlive(c: Config, inputs: seq<Input>)
    requires Diligent(c, inputs)
    ensures Alive(c, RunFrom(c, Initial(), inputs), EntryEnv(c, inputs))
    ensures Ahead(RunFrom(c, Initial(), inputs)) + |inputs| <= 38
    decreases |inputs|
  {
    if inputs != [] {
      var n := |inputs| - 1;
      StaysAlive(c, inputs[..n]);
      var m := RunFrom(c, Initial(), inputs[..n]);
      if m.events == [] {
        AwaitedGoesOn(c, m, EntryEnv(c, inputs[..n]), inputs[n]);
      } else {
        ProcessGoesOn(c, m, EntryEnv(c, inputs[..n]), inputs[n].env);
      }
    }
  }

  /** Something a broker waits for in state `s`. */
  function SomeAwaited(c: Config, s: State): (i: Input)
    requires s != EXIT
    ensures Awaited(c, s, i)
  {
    match s
    case NONE => Post(Start)
    case JOIN => Update(QUORUM)
    case INIT => Post(ScriptEnd(RC1, true, false))
    case QUORUM => if c.rank == 0 then Online(c.quorumSize) else Update(RUN)
    case RUN => if c.rc2 then Post(ScriptEnd(RC2, true, false)) else if c.rank == 0 then Signal else Update(SHUTDOWN)
    case CLEANUP => Post(ScriptEnd(RC_CLEANUP, true, false))
    case SHUTDOWN => Overlay(false, 0)
    case FINALIZE => Post(ScriptEnd(RC3, true, false))
    case GOODBYE => Post(Goodbye)
  }

  /** A broker that works off its queue, and for which what it waits for does happen, gets to EXIT: until it
      is there, its queue is not empty or there is something outside that it waits for; and it is there before
      35 such inputs, whatever order and outcome they have. */
  lemma GetsToExit(c: Config, inputs: seq<Input>)
    requires Diligent(c, inputs)
    ensures RunFrom(c, Initial(), inputs).state == EXIT || (|inputs| < 35 && GoesOn(c, inputs))
  {
    StaysAlive(c, inputs);
    var m := RunFrom(c, Initial(), inputs);
    if m.state != EXIT {
      assert Ahead(m) >= 4;
      var i := if m.events != [] then Process(CALM) else SomeAwaited(c, m.state);
      assert Comes(c, m, EntryEnv(c, inputs), i);
    }
  }

  ghost predicate GoesOn(c: Config, inputs: seq<Input>)
  {
    exists i :: Comes(c, RunFrom(c, Initial(), inputs), EntryEnv(c, inputs), i)
  }

  /* ---- a parent that is gone ---- */

  /** A broker that waits for its parent learns that it is gone from its overlay and from the broken monitor
      stream.  It moves on exactly if it is not in QUORUM: there, nothing is posted on either. */
  lemma LossIsActedOnIff(c: Config, m: Machine, childPeers: nat)
    requires c.rank > 0 && m.events == [] && (m.state == JOIN || m.state == QUORUM || m.state == RUN)
    ensures LeadsOn(RunFrom(c, m, [Lost, Overlay(true, childPeers)]).events, m.state) <==> m.state != QUORUM
  {
    assert [Lost, Overlay(true, childPeers)][..1] == [Lost] && [Lost][..0] == [];
    var m1 := RunFrom(c, m, [Lost]);
    assert m1 == ParentLost(m);
    var m2 := Apply(c, m1, Overlay(true, childPeers));
    assert RunFrom(c, m, [Lost, Overlay(true, childPeers)]) == m2;
    if m.state != QUORUM {
      assert NextState(m.state, m2.events[0]) != m.state;
    }
  }
}
