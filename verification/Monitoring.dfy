/** The state machine as an object: it queues events, runs them, and keeps the clients that
    monitor its state or wait for RUN informed. */
module Monitoring {
  import opened Lifecycle

  /** A request to be told the state; `final` is the last state of interest. */
  datatype MonitorRequest = MonitorRequest(id: nat, streaming: bool, final: int)

  datatype Reply = StateIs(id: nat, state: State) | NoData(id: nat) | Reached(id: nat) | Surpassed(id: nat)

  /* ---- replies to one request ---- */

  function MonitorReplies(r: MonitorRequest, s: State): seq<Reply>
  {
    if Ord(s) > r.final then [NoData(r.id)]
    else if r.streaming && Ord(s) == r.final then [StateIs(r.id, s), NoData(r.id)]
    else [StateIs(r.id, s)]
  }

  predicate MonitorStays(r: MonitorRequest, s: State)
  {
    r.streaming && Ord(s) < r.final
  }

  function WaitReplies(id: nat, s: State): seq<Reply>
  {
    if Ord(s) < Ord(RUN) then [] else if s == RUN then [Reached(id)] else [Surpassed(id)]
  }

  predicate WaitStays(s: State)
  {
    Ord(s) < Ord(RUN)
  }

  /* ---- replies to all requests ---- */

  function AllMonitorReplies(rs: seq<MonitorRequest>, s: State): seq<Reply>
  {
    if rs == [] then [] else AllMonitorReplies(rs[..|rs| - 1], s) + MonitorReplies(rs[|rs| - 1], s)
  }

  function MonitorsLeft(rs: seq<MonitorRequest>, s: State): seq<MonitorRequest>
  {
    if rs == [] then []
    else MonitorsLeft(rs[..|rs| - 1], s) + (if MonitorStays(rs[|rs| - 1], s) then [rs[|rs| - 1]] else [])
  }

  function AllWaitReplies(ids: seq<nat>, s: State): seq<Reply>
  {
    if ids == [] then [] else AllWaitReplies(ids[..|ids| - 1], s) + WaitReplies(ids[|ids| - 1], s)
  }

  function WaitsLeft(ids: seq<nat>, s: State): seq<nat>
  {
    if WaitStays(s) then ids else []
  }

  /** The whole object as a value; `sent` is everything it has ever replied. */
  datatype Daemon = Daemon(m: Machine, monitors: seq<MonitorRequest>, waits: seq<nat>, sent: seq<Reply>)

  function Announce(d: Daemon): Daemon
  {
    d.(monitors := MonitorsLeft(d.monitors, d.m.state),
       waits := WaitsLeft(d.waits, d.m.state),
       sent := d.sent + AllMonitorReplies(d.monitors, d.m.state) + AllWaitReplies(d.waits, d.m.state))
  }

  function WithMachine(d: Daemon, m: Machine): Daemon
  {
    if m.state == d.m.state then d.(m := m) else Announce(d.(m := m))
  }

  function AddMonitor(d: Daemon, r: MonitorRequest): Daemon
  {
    d.(sent := d.sent + MonitorReplies(r, d.m.state),
       monitors := if MonitorStays(r, d.m.state) then d.monitors + [r] else d.monitors)
  }

  function AddWait(d: Daemon, id: nat): Daemon
  {
    d.(sent := d.sent + WaitReplies(id, d.m.state),
       waits := if WaitStays(d.m.state) then d.waits + [id] else d.waits)
  }

  datatype DaemonInput = ToMachine(input: Input) | Monitor(request: MonitorRequest) | Wait(id: nat)

  function Step(c: Config, d: Daemon, i: DaemonInput): Daemon
  {
    match i
    case ToMachine(input) => WithMachine(d, Apply(c, d.m, input))
    case Monitor(r) => AddMonitor(d, r)
    case Wait(id) => AddWait(d, id)
  }

  function Steps(c: Config, d: Daemon, inputs: seq<DaemonInput>): Daemon
    decreases |inputs|
  {
    if inputs == [] then d else Step(c, Steps(c, d, inputs[..|inputs| - 1]), inputs[|inputs| - 1])
  }

  /* ---- the object ---- */

  class StateMachine {
    const config: Config
    var state: State
    var events: seq<Event>
    var parentState: State
    var parentValid: bool
    var parentError: bool
    var monitors: seq<MonitorRequest>
    var waits: seq<nat>
    var sent: seq<Reply>
    ghost var past: seq<State>

    ghost function Core(): Machine
      reads this
    {
      Machine(state, events, parentState, parentValid, parentError, past)
    }

    ghost function View(): Daemon
      reads this
    {
      Daemon(Core(), monitors, waits, sent)
    }

    constructor (c: Config)
      ensures config == c && View() == Daemon(Initial(), [], [], [])
    {
      config := c;
      state, events, parentState, parentValid, parentError := NONE, [], NONE, false, false;
      monitors, waits, sent, past := [], [], [], [];
    }

    method PostOne(event: Event)
      modifies this`events
      ensures events == old(events) + [event]
    {
      events := events + [event];
    }

    method JoinCheckParent()
      modifies this`events
      ensures events == old(events) + old(JoinCheck(Core()))
    {
      if parentError {
        PostOne(ParentFail);
      } else if parentValid {
        match parentState
        case NONE | JOIN | INIT =>
        case QUORUM | RUN => PostOne(ParentReady);
        case CLEANUP | SHUTDOWN | FINALIZE | GOODBYE | EXIT => PostOne(ParentFail);
      }
    }

    method QuorumCheckParent()
      modifies this`events
      ensures events == old(events) + old(QuorumCheck(Core()))
    {
      if parentError {
        PostOne(QuorumFail);
      } else if parentValid {
        match parentState
        case NONE | JOIN | QUORUM =>
        case INIT | RUN => PostOne(QuorumFull);
        case CLEANUP | SHUTDOWN | FINALIZE | GOODBYE | EXIT => PostOne(QuorumFail);
      }
    }

    method RunCheckParent()
      modifies this`events
      ensures events == old(events) + old(RunCheck(Core()))
    {
      if parentError {
        PostOne(ParentFail);
      } else if parentValid {
        match parentState
        case NONE | JOIN | INIT | QUORUM | RUN | CLEANUP =>
        case SHUTDOWN => PostOne(Stop);
        case FINALIZE | GOODBYE | EXIT => PostOne(ParentFail);
      }
    }

    method StartScript(defined: bool, env: Env, fail: Event, none: Event)
      modifies this`events
      ensures events == old(events) + Script(defined, env, fail, none)
    {
      if defined {
        if env.startFails {
          PostOne(fail);
        }
      } else {
        PostOne(none);
      }
    }

    method StateAction(env: Env)
      modifies this`events
      ensures events == old(events) + old(EntryEvents(config, Core(), env))
    {
      match state
      case NONE =>
      case JOIN =>
        if config.rank == 0 { PostOne(ParentNone); } else { JoinCheckParent(); }
      case INIT => StartScript(config.rc1, env, Rc1Fail, Rc1None);
      case QUORUM =>
        if env.joinFails {
          PostOne(QuorumFail);
        } else if config.rank > 0 {
          QuorumCheckParent();
        }
      case RUN =>
        if config.rc2 {
          if env.startFails { PostOne(Rc2Fail); }
        } else if config.rank > 0 {
          RunCheckParent();
        } else {
          PostOne(Rc2None);
        }
      case CLEANUP => StartScript(config.cleanup, env, CleanupFail, CleanupNone);
      case SHUTDOWN =>
        if env.childPeers == 0 { PostOne(ChildrenNone); }
      case FINALIZE => StartScript(config.rc3, env, Rc3Fail, Rc3None);
      case GOODBYE =>
        if config.rank > 0 && env.goodbyeFails { PostOne(Goodbye); }
      case EXIT =>
    }

    method MonitorUpdateOne(r: MonitorRequest) returns (stays: bool)
      modifies this`sent
      ensures stays == MonitorStays(r, state)
      ensures sent == old(sent) + MonitorReplies(r, state)
    {
      if Ord(state) > r.final {
        sent := sent + [NoData(r.id)];
        return false;
      }
      sent := sent + [StateIs(r.id, state)];
      if !r.streaming {
        return false;
      }
      if Ord(state) == r.final {
        sent := sent + [NoData(r.id)];
        return false;
      }
      return true;
    }

    /** Walks the list, deleting in place the requests that are complete. */
    method MonitorUpdate()
      modifies this`sent, this`monitors
      ensures sent == old(sent) + AllMonitorReplies(old(monitors), state)
      ensures monitors == MonitorsLeft(old(monitors), state)
    {
      ghost var all := monitors;
      ghost var n := 0;
      var cursor := 0;
      while cursor < |monitors|
        invariant 0 <= cursor <= |monitors| && Walked(all, n, monitors, cursor, state)
        invariant sent == old(sent) + AllMonitorReplies(all[..n], state)
        decreases |monitors| - cursor
      {
        WalkOn(all, n, monitors, cursor, state);
        var stays := MonitorUpdateOne(monitors[cursor]);
        if stays {
          cursor := cursor + 1;
        } else {
          monitors := monitors[..cursor] + monitors[cursor + 1..];
        }
        n := n + 1;
      }
      WalkEnds(all, n, monitors, state);
    }

    method WaitUpdate()
      modifies this`sent, this`waits
      ensures sent == old(sent) + AllWaitReplies(old(waits), state)
      ensures waits == WaitsLeft(old(waits), state)
    {
      ghost var all := waits;
      ghost var n := 0;
      var cursor := 0;
      while cursor < |waits|
        invariant 0 <= cursor <= |waits| && WaitsWalked(all, n, waits, cursor, state)
        invariant sent == old(sent) + AllWaitReplies(all[..n], state)
        decreases |waits| - cursor
      {
        WaitsWalkOn(all, n, waits, cursor, state);
        if Ord(state) >= Ord(RUN) {
          sent := sent + [if state == RUN then Reached(waits[cursor]) else Surpassed(waits[cursor])];
          waits := waits[..cursor] + waits[cursor + 1..];
        } else {
          cursor := cursor + 1;
        }
        n := n + 1;
      }
      assert all[..n] == all && waits[..cursor] == waits;
    }

    /** Enters a state: acts on it, then tells those who want to know. */
    method EnterState(next: State, env: Env)
      requires next != state
      modifies this
      ensures View() == WithMachine(old(View()), Enter(config, old(Core()), next, env))
    {
      state := next;
      past := past + [next];
      StateAction(env);
      MonitorUpdate();
      WaitUpdate();
    }

    /** Handles the event at the head of the queue, if there is one. */
    method Check(env: Env)
      modifies this
      ensures View() == Step(config, old(View()), ToMachine(Process(env)))
      ensures old(PastIsSound(Core())) ==> PastIsSound(Core())
      ensures config.rank > 0 && old(NothingLost(Core())) ==>
        (NothingLost(Core()) <==> !old(Loses(config, Core(), Process(env))))
    {
      ProcessKeeps(config, Core(), env);
      if events == [] {
        return;
      }
      var event := events[0];
      events := events[1..];
      var next := LookupNext(state, event);
      if next != state {
        EnterState(next, env);
      }
    }

    /** The parent's monitor stream delivers a state. */
    method MonitorContinuation(s: State)
      modifies this
      ensures View() == Step(config, old(View()), ToMachine(Update(s)))
      ensures NothingLost(Core()) && (old(PastIsSound(Core())) ==> PastIsSound(Core()))
    {
      UpdateKeeps(Core(), s);
      parentState, parentValid := s, true;
      CheckParent();
    }

    /** Looks at the recorded parent state, where it matters. */
    method CheckParent()
      modifies this`events
      ensures events == old(events) + old(ParentCheck(Core()))
    {
      if state == JOIN {
        JoinCheckParent();
      } else if state == QUORUM {
        QuorumCheckParent();
      } else if state == RUN {
        RunCheckParent();
      }
    }

    /** The parent's monitor stream ends in an error other than end of data. */
    method MonitorFailed()
      modifies this`parentError
      ensures View() == Step(config, old(View()), ToMachine(Lost))
    {
      parentError := true;
    }

    method OverlayMonitor(overlayParentError: bool, childPeers: nat)
      modifies this`events
      ensures View() == Step(config, old(View()), ToMachine(Overlay(overlayParentError, childPeers)))
      ensures overlayParentError && state == JOIN ==> Prompts(old(events), events, state, SHUTDOWN)
      ensures overlayParentError && state == RUN ==> Prompts(old(events), events, state, CLEANUP)
      ensures childPeers == 0 && state == SHUTDOWN ==> Prompts(old(events), events, state, FINALIZE)
      ensures state !in [JOIN, RUN, SHUTDOWN] ==> events == old(events)
      ensures (if state == SHUTDOWN then childPeers > 0 else !overlayParentError) ==> events == old(events)
    {
      match state
      case JOIN => if overlayParentError { PostOne(ParentFail); }
      case RUN => if overlayParentError { PostOne(Stop); }
      case SHUTDOWN => if childPeers == 0 { PostOne(ChildrenComplete); }
      case _ =>
    }

    method BrokerOnline(members: set<int>)
      modifies this`events
      ensures View() == Step(config, old(View()), ToMachine(Online(|members|)))
      ensures |members| >= config.quorumSize && state == QUORUM ==> Prompts(old(events), events, state, RUN)
      ensures |members| < config.quorumSize || state != QUORUM ==> events == old(events)
    {
      if |members| >= config.quorumSize {
        if state == QUORUM {
          PostOne(QuorumFull);
        }
      }
    }

    /** A script has ended. */
    method RunatCompletion(rc: Rc, exitCode: int, recovery: bool)
      modifies this`events
      ensures View() == Step(config, old(View()), ToMachine(Post(ScriptEnd(rc, exitCode == 0, recovery))))
      ensures Prompts(old(events), events, RunsIn(rc),
                      match rc
                      case RC1 => if exitCode == 0 || recovery then QUORUM else SHUTDOWN
                      case RC2 => CLEANUP
                      case RC_CLEANUP => SHUTDOWN
                      case RC3 => GOODBYE)
    {
      match rc
      case RC1 =>
        PostOne(if exitCode == 0 then Rc1Success else if recovery then Rc1IgnoreFail else Rc1Fail);
      case RC2 => PostOne(if exitCode == 0 then Rc2Success else Rc2Fail);
      case RC_CLEANUP => PostOne(if exitCode == 0 then CleanupSuccess else CleanupFail);
      case RC3 => PostOne(if exitCode == 0 then Rc3Success else Rc3Fail);
    }

    method HandleSignal()
      modifies this`events
      ensures View() == Step(config, old(View()), ToMachine(Signal))
      ensures state == JOIN || state == QUORUM ==> Prompts(old(events), events, state, SHUTDOWN)
      ensures state == RUN && !config.rc2 ==> Prompts(old(events), events, state, CLEANUP)
      ensures state !in [JOIN, QUORUM, RUN] || (state == RUN && config.rc2) ==> events == old(events)
    {
      match state
      case JOIN => PostOne(ParentFail);
      case QUORUM => PostOne(QuorumFail);
      case RUN => if !config.rc2 { PostOne(Stop); }
      case _ =>
    }

    method MonitorRequested(r: MonitorRequest)
      modifies this`sent, this`monitors
      ensures View() == Step(config, old(View()), Monitor(r))
      ensures r.streaming && FreshFor(old(View()), r.id) ==> Streams(View(), r, [state])
    {
      if r.streaming && FreshFor(View(), r.id) {
        StreamBegins(View(), r);
      }
      var stays := MonitorUpdateOne(r);
      if stays {
        monitors := monitors + [r];
      }
    }

    method WaitRequested(id: nat)
      modifies this`sent, this`waits
      ensures View() == Step(config, old(View()), Wait(id))
      ensures FreshFor(old(View()), id) ==> Waits(View(), id, [state])
    {
      WaitAdded(id);
      if FreshFor(old(View()), id) {
        WaitBegins(old(View()), id);
      }
    }

    method WaitAdded(id: nat)
      modifies this`sent, this`waits
      ensures View() == AddWait(old(View()), id)
    {
      if Ord(state) < Ord(RUN) {
        waits := waits + [id];
      } else if state == RUN {
        sent := sent + [Reached(id)];
      } else {
        sent := sent + [Surpassed(id)];
      }
    }
  }

  /** One event has been queued, which takes a broker in state `s` to `next`. */
  predicate Prompts(before: seq<Event>, after: seq<Event>, s: State, next: State)
  {
    |after| == |before| + 1 && before <= after && NextState(s, after[|before|]) == next
  }

  /** After a report, every move it calls for is queued. */
  lemma UpdateKeeps(m: Machine, s: State)
    ensures NothingLost(ParentUpdate(m, s)) && (PastIsSound(m) ==> PastIsSound(ParentUpdate(m, s)))
  {
    ReportLosesNothing(m, s);
  }

  lemma ProcessKeeps(c: Config, m: Machine, env: Env)
    ensures PastIsSound(m) ==> PastIsSound(Apply(c, m, Process(env)))
    ensures c.rank > 0 && NothingLost(m) ==>
      (NothingLost(Apply(c, m, Process(env))) <==> !Loses(c, m, Process(env)))
    ensures Apply(c, m, Process(env)).parentState == m.parentState
  {
    if PastIsSound(m) {
      PastStaysSoundInOneStep(c, m, Process(env));
    }
    if c.rank > 0 && NothingLost(m) {
      StepLosesIff(c, m, Process(env));
    }
  }

  /* ---- what one client sees over a whole run ---- */

  function RepliesTo(sent: seq<Reply>, id: nat): seq<Reply>
  {
    if sent == [] then []
    else RepliesTo(sent[..|sent| - 1], id) + (if sent[|sent| - 1].id == id then [sent[|sent| - 1]] else [])
  }

  lemma {:induction false} RepliesToAppend(a: seq<Reply>, b: seq<Reply>, id: nat)
    ensures RepliesTo(a + b, id) == RepliesTo(a, id) + RepliesTo(b, id)
    decreases |b|
  {
    if b == [] {
      assert a + b == a;
    } else {
      var n := |b| - 1;
      RepliesToAppend(a, b[..n], id);
      assert (a + b)[..|a + b| - 1] == a + b[..n];
    }
  }

  lemma {:induction false} NoReplies(sent: seq<Reply>, id: nat)
    requires forall i :: 0 <= i < |sent| ==> sent[i].id != id
    ensures RepliesTo(sent, id) == []
  {
    if sent != [] {
      NoReplies(sent[..|sent| - 1], id);
    }
  }

  lemma AllForOne(replies: seq<Reply>, id: nat)
    requires |replies| <= 2 && forall i :: 0 <= i < |replies| ==> replies[i].id == id
    ensures RepliesTo(replies, id) == replies
  {
    if |replies| == 2 {
      assert replies[..1] == [replies[0]];
      assert RepliesTo(replies[..1], id) == [replies[0]];
    }
  }

  lemma {:induction false} WaitRepliesElsewhere(ids: seq<nat>, s: State, id: nat)
    requires id !in ids
    ensures RepliesTo(AllWaitReplies(ids, s), id) == []
  {
    if ids != [] {
      var n := |ids| - 1;
      WaitRepliesElsewhere(ids[..n], s, id);
      RepliesToAppend(AllWaitReplies(ids[..n], s), WaitReplies(ids[n], s), id);
      assert ids[n] in ids;
      NoReplies(WaitReplies(ids[n], s), id);
    }
  }

  /** The listed requests with this id. */
  function Only(rs: seq<MonitorRequest>, id: nat): seq<MonitorRequest>
  {
    if rs == [] then []
    else Only(rs[..|rs| - 1], id) + (if rs[|rs| - 1].id == id then [rs[|rs| - 1]] else [])
  }

  lemma OnlyOneMore(rs: seq<MonitorRequest>, q: MonitorRequest, id: nat)
    ensures Only(rs + [q], id) == Only(rs, id) + (if q.id == id then [q] else [])
  {
    assert (rs + [q])[..|rs|] == rs;
  }

  lemma AllRepliesOneMore(rs: seq<MonitorRequest>, q: MonitorRequest, s: State)
    ensures AllMonitorReplies(rs + [q], s) == AllMonitorReplies(rs, s) + MonitorReplies(q, s)
    ensures MonitorsLeft(rs + [q], s) == MonitorsLeft(rs, s) + (if MonitorStays(q, s) then [q] else [])
  {
    assert (rs + [q])[..|rs|] == rs;
  }

  lemma AllWaitsOneMore(ids: seq<nat>, id: nat, s: State)
    ensures AllWaitReplies(ids + [id], s) == AllWaitReplies(ids, s) + WaitReplies(id, s)
  {
    assert (ids + [id])[..|ids|] == ids;
  }

  /** How far a walk over the list `all` has come: the first `n` have been dealt with, and those of them
      that stay are in front of the cursor. */
  ghost predicate Walked(all: seq<MonitorRequest>, n: nat, now: seq<MonitorRequest>, cursor: nat, s: State)
  {
    && n <= |all| && cursor <= |now|
    && now[..cursor] == MonitorsLeft(all[..n], s) && now[cursor..] == all[n..]
  }

  lemma WalkOn(all: seq<MonitorRequest>, n: nat, now: seq<MonitorRequest>, cursor: nat, s: State)
    requires Walked(all, n, now, cursor, s) && cursor < |now|
    ensures n < |all| && now[cursor] == all[n]
    ensures AllMonitorReplies(all[..n + 1], s) == AllMonitorReplies(all[..n], s) + MonitorReplies(all[n], s)
    ensures if MonitorStays(all[n], s) then Walked(all, n + 1, now, cursor + 1, s)
            else Walked(all, n + 1, now[..cursor] + now[cursor + 1..], cursor, s)
  {
    assert |now[cursor..]| == |all[n..]| && now[cursor..][0] == all[n..][0];
    assert all[..n + 1] == all[..n] + [all[n]];
    AllRepliesOneMore(all[..n], all[n], s);
    assert now[cursor + 1..] == now[cursor..][1..] == all[n..][1..] == all[n + 1..];
    if MonitorStays(all[n], s) {
      assert now[..cursor + 1] == now[..cursor] + [now[cursor]];
    } else {
      var left := now[..cursor] + now[cursor + 1..];
      assert left[..cursor] == now[..cursor] && left[cursor..] == now[cursor + 1..];
    }
  }

  lemma WalkEnds(all: seq<MonitorRequest>, n: nat, now: seq<MonitorRequest>, s: State)
    requires Walked(all, n, now, |now|, s)
    ensures now == MonitorsLeft(all, s) && all[..n] == all
  {
    assert now[..|now|] == now;
    assert |all[n..]| == |now[|now|..]| == 0;
    assert all[..n] == all;
  }

  ghost predicate WaitsWalked(all: seq<nat>, n: nat, now: seq<nat>, cursor: nat, s: State)
  {
    && n <= |all| && cursor <= |now|
    && now[..cursor] == WaitsLeft(all[..n], s) && now[cursor..] == all[n..]
  }

  lemma WaitsWalkOn(all: seq<nat>, n: nat, now: seq<nat>, cursor: nat, s: State)
    requires WaitsWalked(all, n, now, cursor, s) && cursor < |now|
    ensures n < |all| && now[cursor] == all[n]
    ensures AllWaitReplies(all[..n + 1], s) == AllWaitReplies(all[..n], s) + WaitReplies(all[n], s)
    ensures if WaitStays(s) then WaitsWalked(all, n + 1, now, cursor + 1, s)
            else WaitsWalked(all, n + 1, now[..cursor] + now[cursor + 1..], cursor, s)
  {
    assert |now[cursor..]| == |all[n..]| && now[cursor..][0] == all[n..][0];
    assert all[..n + 1] == all[..n] + [all[n]];
    AllWaitsOneMore(all[..n], all[n], s);
    assert now[cursor + 1..] == now[cursor..][1..] == all[n..][1..] == all[n + 1..];
    if WaitStays(s) {
      assert now[..cursor + 1] == now[..cursor] + [now[cursor]];
    } else {
      var left := now[..cursor] + now[cursor + 1..];
      assert left[..cursor] == now[..cursor] && left[cursor..] == now[cursor + 1..];
    }
  }

  lemma OwnReplies(q: MonitorRequest, s: State, id: nat)
    ensures RepliesTo(MonitorReplies(q, s), id) == if q.id == id then MonitorReplies(q, s) else []
  {
    if q.id == id {
      AllForOne(MonitorReplies(q, s), id);
    } else {
      NoReplies(MonitorReplies(q, s), id);
    }
  }

  /** A listed request gets its own replies and no others. */
  lemma {:induction false} RepliesCommute(rs: seq<MonitorRequest>, s: State, id: nat)
    ensures RepliesTo(AllMonitorReplies(rs, s), id) == AllMonitorReplies(Only(rs, id), s)
  {
    if rs != [] {
      var init, last := rs[..|rs| - 1], rs[|rs| - 1];
      RepliesCommute(init, s, id);
      RepliesToAppend(AllMonitorReplies(init, s), MonitorReplies(last, s), id);
      OwnReplies(last, s, id);
      if last.id == id {
        AllRepliesOneMore(Only(init, id), last, s);
        assert Only(rs, id) == Only(init, id) + [last];
      } else {
        assert Only(rs, id) == Only(init, id);
      }
    }
  }

  lemma {:induction false} LeftCommutes(rs: seq<MonitorRequest>, s: State, id: nat)
    ensures Only(MonitorsLeft(rs, s), id) == MonitorsLeft(Only(rs, id), s)
  {
    if rs != [] {
      var init, last := rs[..|rs| - 1], rs[|rs| - 1];
      LeftCommutes(init, s, id);
      OnlyOneMore(MonitorsLeft(init, s), last, id);
      if last.id == id {
        AllRepliesOneMore(Only(init, id), last, s);
        assert Only(rs, id) == Only(init, id) + [last];
      } else {
        assert Only(rs, id) == Only(init, id);
      }
      if !MonitorStays(last, s) {
        assert MonitorsLeft(rs, s) == MonitorsLeft(init, s);
      }
    }
  }

  lemma {:induction false} NoneWithId(rs: seq<MonitorRequest>, id: nat)
    requires forall i :: 0 <= i < |rs| ==> rs[i].id != id
    ensures Only(rs, id) == []
  {
    if rs != [] {
      NoneWithId(rs[..|rs| - 1], id);
    }
  }

  function StatesSeen(r: MonitorRequest, states: seq<State>): seq<Reply>
  {
    if states == [] then []
    else StatesSeen(r, states[..|states| - 1])
         + (if Ord(states[|states| - 1]) <= r.final then [StateIs(r.id, states[|states| - 1])] else [])
  }

  /** Every state up to the final one, in order, and one end-of-data once that is reached or passed. */
  function ExpectedStream(r: MonitorRequest, states: seq<State>): seq<Reply>
    requires states != []
  {
    StatesSeen(r, states) + (if Ord(states[|states| - 1]) >= r.final then [NoData(r.id)] else [])
  }

  /** Meeting a higher state adds exactly what an open request is sent for it. */
  lemma ExpectedGrows(r: MonitorRequest, states: seq<State>, s: State)
    requires r.streaming && states != [] && Ord(states[|states| - 1]) < Ord(s)
    ensures ExpectedStream(r, states + [s])
         == ExpectedStream(r, states) + (if Ord(states[|states| - 1]) < r.final then MonitorReplies(r, s) else [])
  {
    assert (states + [s])[..|states|] == states;
  }

  lemma ExpectedFirst(r: MonitorRequest, s: State)
    requires r.streaming
    ensures ExpectedStream(r, [s]) == MonitorReplies(r, s)
  {
    assert [s][..0] == [];
    assert StatesSeen(r, [s][..0]) == [];
  }

  lemma RisingGrows(states: seq<State>, s: State)
    requires states != [] && Rising(states) && Ord(states[|states| - 1]) < Ord(s)
    ensures Rising(states + [s])
  {
    forall i, j | 0 <= i < j < |states + [s]|
      ensures Ord((states + [s])[i]) < Ord((states + [s])[j])
    {
      if j == |states| && i < j - 1 {
        assert Ord(states[i]) < Ord(states[j - 1]);
      }
    }
  }

  /** An input moves the machine up by at most one entered state. */
  lemma OneEntryPerInput(c: Config, m: Machine, i: Input)
    ensures MovesOn(m, Apply(c, m, i))
  {
  }

  ghost predicate OtherId(i: DaemonInput, id: nat)
  {
    (i.Monitor? ==> i.request.id != id) && (i.Wait? ==> i.id != id)
  }

  ghost predicate FreshFor(d: Daemon, id: nat)
  {
    && (forall i :: 0 <= i < |d.sent| ==> d.sent[i].id != id)
    && (forall i :: 0 <= i < |d.monitors| ==> d.monitors[i].id != id)
    && id !in d.waits
  }

  /** What holds of request `r` when the states met since it arrived are `states`. */
  ghost predicate Streams(d: Daemon, r: MonitorRequest, states: seq<State>)
  {
    && states != [] && Rising(states) && states[|states| - 1] == d.m.state
    && RepliesTo(d.sent, r.id) == ExpectedStream(r, states)
    && Only(d.monitors, r.id) == (if Ord(d.m.state) < r.final then [r] else [])
    && r.id !in d.waits
  }

  lemma StreamBegins(d: Daemon, r: MonitorRequest)
    requires r.streaming && FreshFor(d, r.id)
    ensures Streams(AddMonitor(d, r), r, [d.m.state])
  {
    NoReplies(d.sent, r.id);
    RepliesToAppend(d.sent, MonitorReplies(r, d.m.state), r.id);
    OwnReplies(r, d.m.state, r.id);
    NoneWithId(d.monitors, r.id);
    OnlyOneMore(d.monitors, r, r.id);
    ExpectedFirst(r, d.m.state);
  }

  lemma AnnounceToOne(d: Daemon, r: MonitorRequest)
    requires r.id !in d.waits && |Only(d.monitors, r.id)| <= 1
    ensures RepliesTo(Announce(d).sent, r.id)
         == RepliesTo(d.sent, r.id) + AllMonitorReplies(Only(d.monitors, r.id), d.m.state)
    ensures Only(Announce(d).monitors, r.id) == MonitorsLeft(Only(d.monitors, r.id), d.m.state)
  {
    var a, b := AllMonitorReplies(d.monitors, d.m.state), AllWaitReplies(d.waits, d.m.state);
    RepliesToAppend(d.sent + a, b, r.id);
    RepliesToAppend(d.sent, a, r.id);
    WaitRepliesElsewhere(d.waits, d.m.state, r.id);
    RepliesCommute(d.monitors, d.m.state, r.id);
    LeftCommutes(d.monitors, d.m.state, r.id);
  }

  lemma OneListed(r: MonitorRequest, s: State)
    ensures AllMonitorReplies([], s) == [] && MonitorsLeft([], s) == []
    ensures AllMonitorReplies([r], s) == MonitorReplies(r, s)
    ensures MonitorsLeft([r], s) == if MonitorStays(r, s) then [r] else []
  {
    assert [] + [r] == [r];
    AllRepliesOneMore([], r, s);
  }

  lemma StreamGrows(d: Daemon, m: Machine, r: MonitorRequest, states: seq<State>)
    requires r.streaming && Streams(d, r, states) && Ord(d.m.state) < Ord(m.state)
    ensures Streams(Announce(d.(m := m)), r, states + [m.state])
  {
    AnnounceToOne(d.(m := m), r);
    ExpectedGrows(r, states, m.state);
    RisingGrows(states, m.state);
    OneListed(r, m.state);
  }

  lemma UndisturbedByMonitor(d: Daemon, q: MonitorRequest, r: MonitorRequest, states: seq<State>)
    requires Streams(d, r, states) && q.id != r.id
    ensures Streams(AddMonitor(d, q), r, states)
  {
    RepliesToAppend(d.sent, MonitorReplies(q, d.m.state), r.id);
    NoReplies(MonitorReplies(q, d.m.state), r.id);
    OnlyOneMore(d.monitors, q, r.id);
  }

  lemma UndisturbedByWait(d: Daemon, id: nat, r: MonitorRequest, states: seq<State>)
    requires Streams(d, r, states) && id != r.id
    ensures Streams(AddWait(d, id), r, states)
  {
    RepliesToAppend(d.sent, WaitReplies(id, d.m.state), r.id);
    NoReplies(WaitReplies(id, d.m.state), r.id);
  }

  lemma StreamUndisturbed(c: Config, d: Daemon, i: DaemonInput, r: MonitorRequest, states: seq<State>)
    requires Streams(d, r, states) && OtherId(i, r.id) && !i.ToMachine?
    ensures Streams(Step(c, d, i), r, states)
  {
    if i.Monitor? {
      UndisturbedByMonitor(d, i.request, r, states);
    } else {
      UndisturbedByWait(d, i.id, r, states);
    }
  }

  /** The states met since the request arrived, when `past` was the history then. */
  function Met(start: State, past: seq<State>, now: seq<State>): seq<State>
  {
    if |past| <= |now| then [start] + now[|past|..] else [start]
  }

  /** `m1` is `m`, or `m` after it has entered one higher state. */
  ghost predicate MovesOn(m: Machine, m1: Machine)
  {
    if m1.state == m.state then m1.past == m.past
    else Ord(m.state) < Ord(m1.state) && m1.past == m.past + [m1.state]
  }

  lemma MetGrows(start: State, past: seq<State>, m: Machine, m1: Machine)
    requires past <= m.past && MovesOn(m, m1)
    ensures past <= m1.past
    ensures Met(start, past, m1.past) == Met(start, past, m.past) + (if m1.state == m.state then [] else [m1.state])
  {
  }

  lemma StreamOnMachine(d0: Daemon, d: Daemon, m: Machine, r: MonitorRequest)
    requires r.streaming && MovesOn(d.m, m)
    requires d0.m.past <= d.m.past && Streams(d, r, Met(d0.m.state, d0.m.past, d.m.past))
    ensures d0.m.past <= m.past && Streams(WithMachine(d, m), r, Met(d0.m.state, d0.m.past, m.past))
  {
    MetGrows(d0.m.state, d0.m.past, d.m, m);
    if m.state != d.m.state {
      StreamGrows(d, m, r, Met(d0.m.state, d0.m.past, d.m.past));
    }
  }

  lemma StreamOneStep(c: Config, d0: Daemon, d: Daemon, i: DaemonInput, r: MonitorRequest)
    requires r.streaming && OtherId(i, r.id)
    requires d0.m.past <= d.m.past && Streams(d, r, Met(d0.m.state, d0.m.past, d.m.past))
    ensures d0.m.past <= Step(c, d, i).m.past
    ensures Streams(Step(c, d, i), r, Met(d0.m.state, d0.m.past, Step(c, d, i).m.past))
  {
    var met := Met(d0.m.state, d0.m.past, d.m.past);
    if i.ToMachine? {
      OneEntryPerInput(c, d.m, i.input);
      StreamOnMachine(d0, d, Apply(c, d.m, i.input), r);
    } else {
      StreamUndisturbed(c, d, i, r, met);
    }
  }

  lemma {:induction false} StreamAlongRun(c: Config, d: Daemon, r: MonitorRequest, inputs: seq<DaemonInput>)
    requires r.streaming && FreshFor(d, r.id)
    requires forall i :: 0 <= i < |inputs| ==> OtherId(inputs[i], r.id)
    ensures d.m.past <= Steps(c, AddMonitor(d, r), inputs).m.past
    ensures Streams(Steps(c, AddMonitor(d, r), inputs), r,
                    Met(d.m.state, d.m.past, Steps(c, AddMonitor(d, r), inputs).m.past))
    decreases |inputs|
  {
    if inputs == [] {
      StreamBegins(d, r);
      assert Met(d.m.state, d.m.past, d.m.past) == [d.m.state];
    } else {
      var n := |inputs| - 1;
      StreamAlongRun(c, d, r, inputs[..n]);
      StreamOneStep(c, d, Steps(c, AddMonitor(d, r), inputs[..n]), inputs[n], r);
    }
  }

  /** A streaming monitor request is sent the states met from its arrival on, strictly rising, up to
      its final state; and exactly one end-of-data, last, once that state is reached or passed. */
  lemma MonitorStreamIsExact(c: Config, d: Daemon, r: MonitorRequest, inputs: seq<DaemonInput>, end: Daemon)
    requires r.streaming && FreshFor(d, r.id)
    requires forall i :: 0 <= i < |inputs| ==> OtherId(inputs[i], r.id)
    requires end == Steps(c, Step(c, d, Monitor(r)), inputs)
    ensures Rising(Met(d.m.state, d.m.past, end.m.past))
    ensures RepliesTo(end.sent, r.id) == ExpectedStream(r, Met(d.m.state, d.m.past, end.m.past))
  {
    assert Step(c, d, Monitor(r)) == AddMonitor(d, r);
    StreamAlongRun(c, d, r, inputs);
  }

  /* ---- what one waiting client sees ---- */

  function OnlyWaits(ids: seq<nat>, id: nat): seq<nat>
  {
    if ids == [] then []
    else OnlyWaits(ids[..|ids| - 1], id) + (if ids[|ids| - 1] == id then [id] else [])
  }

  lemma WaitsOneMore(ids: seq<nat>, q: nat, id: nat, s: State)
    ensures OnlyWaits(ids + [q], id) == OnlyWaits(ids, id) + (if q == id then [id] else [])
    ensures AllWaitReplies(ids + [q], s) == AllWaitReplies(ids, s) + WaitReplies(q, s)
  {
    assert (ids + [q])[..|ids|] == ids;
  }

  lemma OwnWaitReplies(q: nat, s: State, id: nat)
    ensures RepliesTo(WaitReplies(q, s), id) == if q == id then WaitReplies(q, s) else []
  {
    if q == id {
      AllForOne(WaitReplies(q, s), id);
    } else {
      NoReplies(WaitReplies(q, s), id);
    }
  }

  lemma {:induction false} WaitsCommute(ids: seq<nat>, s: State, id: nat)
    ensures RepliesTo(AllWaitReplies(ids, s), id) == AllWaitReplies(OnlyWaits(ids, id), s)
  {
    if ids != [] {
      var init, last := ids[..|ids| - 1], ids[|ids| - 1];
      WaitsCommute(init, s, id);
      RepliesToAppend(AllWaitReplies(init, s), WaitReplies(last, s), id);
      OwnWaitReplies(last, s, id);
      if last == id {
        WaitsOneMore(OnlyWaits(init, id), last, id, s);
        assert OnlyWaits(ids, id) == OnlyWaits(init, id) + [id];
      } else {
        assert OnlyWaits(ids, id) == OnlyWaits(init, id);
      }
    }
  }

  lemma {:induction false} NoneWaiting(ids: seq<nat>, id: nat)
    requires id !in ids
    ensures OnlyWaits(ids, id) == []
  {
    if ids != [] {
      assert ids[|ids| - 1] in ids;
      NoneWaiting(ids[..|ids| - 1], id);
    }
  }

  lemma {:induction false} MonitorRepliesElsewhere(rs: seq<MonitorRequest>, s: State, id: nat)
    requires Only(rs, id) == []
    ensures RepliesTo(AllMonitorReplies(rs, s), id) == [] && Only(MonitorsLeft(rs, s), id) == []
  {
    RepliesCommute(rs, s, id);
    LeftCommutes(rs, s, id);
  }

  /** The position of the first state at or beyond RUN, or the length if there is none. */
  function FirstBeyond(states: seq<State>): (k: nat)
    ensures k <= |states|
    ensures forall i :: 0 <= i < k ==> Ord(states[i]) < Ord(RUN)
    ensures k < |states| ==> Ord(states[k]) >= Ord(RUN)
  {
    if states == [] then 0 else
      var n := |states| - 1;
      var k := FirstBeyond(states[..n]);
      if k < n then k else if Ord(states[n]) >= Ord(RUN) then n else |states|
  }

  /** Nothing until a state at or beyond RUN is met; then one reply, for the first such state. */
  function ExpectedWait(id: nat, states: seq<State>): seq<Reply>
  {
    var k := FirstBeyond(states);
    if k == |states| then [] else [if states[k] == RUN then Reached(id) else Surpassed(id)]
  }

  ghost predicate Waits(d: Daemon, id: nat, states: seq<State>)
  {
    && states != [] && Rising(states) && states[|states| - 1] == d.m.state
    && RepliesTo(d.sent, id) == ExpectedWait(id, states)
    && Only(d.monitors, id) == []
    && OnlyWaits(d.waits, id) == (if WaitStays(d.m.state) then [id] else [])
  }

  lemma ExpectedAtOnce(id: nat, s: State)
    ensures ExpectedWait(id, [s]) == WaitReplies(id, s)
  {
  }

  lemma AnsweredAtOnce(d: Daemon, id: nat)
    requires FreshFor(d, id)
    ensures RepliesTo(d.sent + WaitReplies(id, d.m.state), id) == ExpectedWait(id, [d.m.state])
  {
    NoReplies(d.sent, id);
    RepliesToAppend(d.sent, WaitReplies(id, d.m.state), id);
    OwnWaitReplies(id, d.m.state, id);
    ExpectedAtOnce(id, d.m.state);
  }

  lemma WaitBegins(d: Daemon, id: nat)
    requires FreshFor(d, id)
    ensures Waits(AddWait(d, id), id, [d.m.state])
  {
    AnsweredAtOnce(d, id);
    NoneWithId(d.monitors, id);
    NoneWaiting(d.waits, id);
    WaitsOneMore(d.waits, id, id, d.m.state);
  }

  lemma WaitExpectedGrows(id: nat, states: seq<State>, s: State)
    requires states != [] && Rising(states) && Ord(states[|states| - 1]) < Ord(s)
    ensures ExpectedWait(id, states + [s])
         == ExpectedWait(id, states) + (if WaitStays(states[|states| - 1]) then WaitReplies(id, s) else [])
  {
    var n := |states|;
    assert (states + [s])[..n] == states;
    var k := FirstBeyond(states);
    if k < n - 1 {
      assert Ord(states[k]) < Ord(states[n - 1]);
    }
  }

  lemma WaitGrows(d: Daemon, m: Machine, id: nat, states: seq<State>)
    requires Waits(d, id, states) && Ord(d.m.state) < Ord(m.state)
    ensures Waits(Announce(d.(m := m)), id, states + [m.state])
  {
    var a, b := AllMonitorReplies(d.monitors, m.state), AllWaitReplies(d.waits, m.state);
    RepliesToAppend(d.sent + a, b, id);
    RepliesToAppend(d.sent, a, id);
    MonitorRepliesElsewhere(d.monitors, m.state, id);
    WaitsCommute(d.waits, m.state, id);
    WaitsOneMore([], id, id, m.state);
    WaitExpectedGrows(id, states, m.state);
    RisingGrows(states, m.state);
  }

  lemma WaitUndisturbed(c: Config, d: Daemon, i: DaemonInput, id: nat, states: seq<State>)
    requires Waits(d, id, states) && OtherId(i, id) && !i.ToMachine?
    ensures Waits(Step(c, d, i), id, states)
  {
    if i.Monitor? {
      RepliesToAppend(d.sent, MonitorReplies(i.request, d.m.state), id);
      OwnReplies(i.request, d.m.state, id);
      OnlyOneMore(d.monitors, i.request, id);
    } else {
      RepliesToAppend(d.sent, WaitReplies(i.id, d.m.state), id);
      OwnWaitReplies(i.id, d.m.state, id);
      WaitsOneMore(d.waits, i.id, id, d.m.state);
    }
  }

  lemma WaitOnMachine(d0: Daemon, d: Daemon, m: Machine, id: nat)
    requires MovesOn(d.m, m)
    requires d0.m.past <= d.m.past && Waits(d, id, Met(d0.m.state, d0.m.past, d.m.past))
    ensures d0.m.past <= m.past && Waits(WithMachine(d, m), id, Met(d0.m.state, d0.m.past, m.past))
  {
    MetGrows(d0.m.state, d0.m.past, d.m, m);
    if m.state != d.m.state {
      WaitGrows(d, m, id, Met(d0.m.state, d0.m.past, d.m.past));
    }
  }

  lemma WaitOneStep(c: Config, d0: Daemon, d: Daemon, i: DaemonInput, id: nat)
    requires OtherId(i, id)
    requires d0.m.past <= d.m.past && Waits(d, id, Met(d0.m.state, d0.m.past, d.m.past))
    ensures d0.m.past <= Step(c, d, i).m.past
    ensures Waits(Step(c, d, i), id, Met(d0.m.state, d0.m.past, Step(c, d, i).m.past))
  {
    var met := Met(d0.m.state, d0.m.past, d.m.past);
    if i.ToMachine? {
      OneEntryPerInput(c, d.m, i.input);
      WaitOnMachine(d0, d, Apply(c, d.m, i.input), id);
    } else {
      WaitUndisturbed(c, d, i, id, met);
    }
  }

  lemma {:induction false} WaitAlongRun(c: Config, d: Daemon, id: nat, inputs: seq<DaemonInput>)
    requires FreshFor(d, id)
    requires forall i :: 0 <= i < |inputs| ==> OtherId(inputs[i], id)
    ensures d.m.past <= Steps(c, AddWait(d, id), inputs).m.past
    ensures Waits(Steps(c, AddWait(d, id), inputs), id,
                  Met(d.m.state, d.m.past, Steps(c, AddWait(d, id), inputs).m.past))
    decreases |inputs|
  {
    if inputs == [] {
      WaitBegins(d, id);
      assert Met(d.m.state, d.m.past, d.m.past) == [d.m.state];
    } else {
      var n := |inputs| - 1;
      WaitAlongRun(c, d, id, inputs[..n]);
      WaitOneStep(c, d, Steps(c, AddWait(d, id), inputs[..n]), inputs[n], id);
    }
  }

  /** A wait request gets no reply before RUN, and then exactly one: success if and only if RUN is the
      first state at or beyond RUN that the broker meets from the request's arrival on. */
  lemma WaitIsAnsweredOnce(c: Config, d: Daemon, id: nat, inputs: seq<DaemonInput>, end: Daemon)
    requires FreshFor(d, id)
    requires forall i :: 0 <= i < |inputs| ==> OtherId(inputs[i], id)
    requires end == Steps(c, Step(c, d, Wait(id)), inputs)
    ensures RepliesTo(end.sent, id) == ExpectedWait(id, Met(d.m.state, d.m.past, end.m.past))
  {
    assert Step(c, d, Wait(id)) == AddWait(d, id);
    WaitAlongRun(c, d, id, inputs);
  }
}
