/** Requests sent to the parent and the answers that come back: each is answered once, by the parent's
    response or, when the parent sends a disconnect, by a made-up error. */
module Upstream {
  import opened Overlay

  datatype Message = Response(key: Key) | Disconnect

  /** One broker, its parent and the connection between them.  A request is `open` at the parent until it
      responds.  `wire` is what the parent has sent and the broker has not received, oldest first.  The
      parent has `dropped` the broker once it does not list it as an online child, and the broker is
      `offline` once it has been told.  `uses` counts the requests sent under each key; `replies` is the
      responses passed on, `failed` the made-up ones; `cancelled` is what was tracked for a sender who
      disconnected. */
  datatype World = World(
    tracked: set<Key>,
    offline: bool,
    open: set<Key>,
    wire: seq<Message>,
    dropped: bool,
    uses: multiset<Key>,
    replies: multiset<Key>,
    failed: multiset<Key>,
    cancelled: set<Key>)

  /** Respond, Drop and Refuse are steps of the parent: it responds to online children only, and sends a
      disconnect to a peer that is not one.  A response comes with routes that name the sender. */
  datatype Step =
    | Send(routes: seq<Uuid>, matchtag: nat)
    | Cancel(sender: Uuid)
    | Respond(key: Key)
    | Drop
    | Refuse
    | Receive(routes: seq<Uuid>)

  function Count(w: World, k: Key): nat
  {
    w.replies[k] + w.failed[k]
  }

  /** The key is new or its last use has been answered, and nobody waits for a late response to it. */
  predicate CanSend(w: World, key: Key)
  {
    !w.offline && key !in w.cancelled && Count(w, key) == w.uses[key]
  }

  /** The message goes up with the routes it came with, and is tracked under their key. */
  function AfterSend(w: World, routes: seq<Uuid>, matchtag: nat): World
  {
    var key := Key(Sender(routes), matchtag);
    if CanSend(w, key)
    then w.(tracked := w.tracked + {KeyOf(routes, matchtag)}, open := w.open + {key}, uses := w.uses + multiset{key})
    else w
  }

  /** A disconnect without routes names no sender. */
  function AfterCancel(w: World, sender: Uuid): World
  {
    if w.offline || sender == "" then w else
      w.(tracked := w.tracked - From(w.tracked, sender), cancelled := w.cancelled + From(w.tracked, sender))
  }

  function AfterRespond(w: World, key: Key): World
  {
    if key in w.open && !w.dropped then w.(open := w.open - {key}, wire := w.wire + [Response(key)]) else w
  }

  function AfterRefuse(w: World): World
  {
    if w.dropped then w.(wire := w.wire + [Disconnect]) else w
  }

  /** A response is passed on whether or not it is tracked.  A disconnect fails what is tracked. */
  function AfterReceive(w: World, routes: seq<Uuid>): World
  {
    if w.wire == [] then w else
      var w1 := w.(wire := w.wire[1..]);
      match w.wire[0]
      case Response(key) =>
        if Sender(routes) != key.sender then w else
          w1.(tracked := w.tracked - {KeyOf(routes, key.matchtag)}, replies := w.replies + multiset{key})
      case Disconnect => w1.(offline := true, tracked := {}, failed := w.failed + multiset(w.tracked))
  }

  function Next(w: World, step: Step): World
  {
    match step
    case Send(routes, matchtag) => AfterSend(w, routes, matchtag)
    case Cancel(sender) => AfterCancel(w, sender)
    case Respond(key) => AfterRespond(w, key)
    case Drop => w.(dropped := true)
    case Refuse => AfterRefuse(w)
    case Receive(routes) => AfterReceive(w, routes)
  }

  /* ---- the invariant ---- */

  /** At most one response to each key is on the wire, and none behind a disconnect. */
  ghost predicate InOrder(wire: seq<Message>)
  {
    forall i, j :: 0 <= i < j < |wire| && wire[j].Response? ==> wire[i].Response? && wire[i] != wire[j]
  }

  predicate Due(w: World, k: Key)
  {
    k in w.open || Response(k) in w.wire
  }

  ghost predicate Wired(w: World)
  {
    && InOrder(w.wire)
    && (Disconnect in w.wire || w.offline ==> w.dropped)
    && (forall k :: k in w.open ==> Response(k) !in w.wire)
    && (w.offline ==> forall k :: Response(k) !in w.wire)
  }

  /** Before the disconnect a request is tracked until its response arrives; after it, everything that
      was still tracked has been answered. */
  ghost predicate Settled(w: World, k: Key)
  {
    if w.offline then
      && k !in w.tracked
      && w.uses[k] - 1 <= Count(w, k) <= w.uses[k]
      && (k !in w.cancelled ==> Count(w, k) == w.uses[k])
    else
      && (k in w.tracked <==> Due(w, k) && k !in w.cancelled)
      && w.uses[k] == Count(w, k) + (if Due(w, k) then 1 else 0)
  }

  ghost predicate Inv(w: World)
  {
    Wired(w) && forall k :: Settled(w, k)
  }

  lemma SendKeeps(w: World, routes: seq<Uuid>, matchtag: nat)
    requires Inv(w)
    ensures Inv(AfterSend(w, routes, matchtag))
  {
    var key := Key(Sender(routes), matchtag);
    if CanSend(w, key) {
      assert Settled(w, key);
      forall k
        ensures Settled(AfterSend(w, routes, matchtag), k)
      {
        assert Settled(w, k);
      }
    }
  }

  lemma CancelKeeps(w: World, sender: Uuid)
    requires Inv(w)
    ensures Inv(AfterCancel(w, sender))
  {
    forall k
      ensures Settled(AfterCancel(w, sender), k)
    {
      assert Settled(w, k);
    }
  }

  lemma RespondKeeps(w: World, key: Key)
    requires Inv(w)
    ensures Inv(AfterRespond(w, key))
  {
    if key in w.open && !w.dropped {
      var w1 := AfterRespond(w, key);
      assert forall m :: m in w1.wire <==> m in w.wire || m == Response(key);
      forall k
        ensures Settled(w1, k)
      {
        assert Settled(w, k);
      }
    }
  }

  lemma RefuseKeeps(w: World)
    requires Inv(w)
    ensures Inv(AfterRefuse(w))
  {
    var w1 := AfterRefuse(w);
    assert forall k :: Response(k) in w1.wire <==> Response(k) in w.wire;
    forall k
      ensures Settled(w1, k)
    {
      assert Settled(w, k);
    }
  }

  lemma WireAfterReceive(wire: seq<Message>)
    requires InOrder(wire) && wire != []
    ensures InOrder(wire[1..])
    ensures forall m :: m in wire <==> m == wire[0] || m in wire[1..]
    ensures wire[0].Response? ==> wire[0] !in wire[1..]
    ensures wire[0].Disconnect? ==> forall k :: Response(k) !in wire
  {
    assert wire == [wire[0]] + wire[1..];
  }

  lemma ReceiveKeeps(w: World, routes: seq<Uuid>)
    requires Inv(w)
    ensures Inv(AfterReceive(w, routes))
  {
    if w.wire != [] {
      WireAfterReceive(w.wire);
      forall k
        ensures Settled(AfterReceive(w, routes), k)
      {
        assert Settled(w, k);
      }
    }
  }

  lemma NextKeeps(w: World, step: Step)
    requires Inv(w)
    ensures Inv(Next(w, step))
  {
    match step
    case Send(routes, matchtag) => SendKeeps(w, routes, matchtag);
    case Cancel(sender) => CancelKeeps(w, sender);
    case Respond(key) => RespondKeeps(w, key);
    case Drop => assert forall k :: Settled(w, k) ==> Settled(w.(dropped := true), k);
    case Refuse => RefuseKeeps(w);
    case Receive(routes) => ReceiveKeeps(w, routes);
  }

  /* ---- runs ---- */

  function Run(steps: seq<Step>): World
  {
    if steps == [] then World({}, false, {}, [], false, multiset{}, multiset{}, multiset{}, {}) else
      var n := |steps| - 1;
      Next(Run(steps[..n]), steps[n])
  }

  lemma {:induction false} InvHolds(steps: seq<Step>)
    ensures Inv(Run(steps))
  {
    if steps != [] {
      var n := |steps| - 1;
      InvHolds(steps[..n]);
      NextKeeps(Run(steps[..n]), steps[n]);
    }
  }

  /** Whatever happens, a request that was sent to the parent, the broker's own included, is never answered
      twice.  Unless its sender disconnected, it is answered exactly if it is no longer tracked; and once
      the parent's disconnect has arrived, nothing is tracked. */
  lemma AnsweredExactlyOnce(steps: seq<Step>, sender: Uuid, matchtag: nat)
    ensures var w, k := Run(steps), Key(sender, matchtag);
      && w.uses[k] - 1 <= Count(w, k) <= w.uses[k]
      && (k !in w.cancelled ==> w.uses[k] == Count(w, k) + (if k in w.tracked then 1 else 0))
      && (k in w.cancelled || w.offline ==> k !in w.tracked)
  {
    InvHolds(steps);
    assert Settled(Run(steps), Key(sender, matchtag));
  }

  /** A response ends the wait for the request with its sender and match tag at most. */
  lemma ResponseLeavesOthers(w: World, routes: seq<Uuid>, sender: Uuid, matchtag: nat)
    requires w.wire != [] && w.wire[0].Response? && w.wire[0].key != Key(sender, matchtag)
    ensures Key(sender, matchtag) in AfterReceive(w, routes).tracked <==> Key(sender, matchtag) in w.tracked
  {
  }
}
