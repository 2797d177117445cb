/** Requests sent to children and the answers that come back: each request that was sent on behalf of
    somebody else is answered once, by the child or by a made-up error, whatever the children do.  The
    broker's own requests can be answered twice. */
module Answers {
  import opened Overlay

  /** The broker `self`, its children, and what is in transit.  A key names a request, by the routes with
      which it reaches the broker and its match tag, and may be used for another once the request has been
      answered: `uses` counts the requests sent under each key, and `at` is the
      connection of the last.  A request is `open` at the peer until the peer responds, and the response is
      in `flight` until it is received.  `replies` is the responses passed on to the requesters; the
      made-up errors are in the view.  `used` is the identities that have said hello, and `dropped` what
      was tracked for a sender who disconnected. */
  datatype World = World(
    self: Uuid,
    v: View,
    used: set<Uuid>,
    at: map<Key, Uuid>,
    uses: multiset<Key>,
    open: set<(Uuid, Key)>,
    flight: set<(Uuid, Key)>,
    replies: multiset<Key>,
    dropped: set<Key>)

  /** Hello comes with an identity made when the child started.  Report is a status message, Bye a
      goodbye whose reply was sent, Gone the discovery that a peer is unreachable.  Send puts a request on
      the wire and Cancel tells a child that a requester has disconnected.  Respond is a step of the peer,
      Receive takes one response off the wire. */
  datatype Step =
    | Hello(rank: int, uuid: Uuid, status: Status, versionOk: bool)
    | Report(uuid: Uuid, status: Status)
    | Bye(uuid: Uuid)
    | Gone(uuid: Uuid)
    | Send(child: nat, routes: seq<Uuid>, matchtag: nat)
    | Cancel(child: nat, sender: Uuid)
    | Respond(uuid: Uuid, key: Key)
    | Receive(uuid: Uuid, routes: seq<Uuid>, matchtag: nat)

  /** What a request is tracked under: the broker's own, which come without routes, under its identity. */
  function Tracked(self: Uuid, key: Key): Key
  {
    if key.sender == "" then Key(self, key.matchtag) else key
  }

  /** The key of a request as it is sent, and that of its response as it arrives. */
  lemma TrackedAsSent(self: Uuid, child: Uuid, routes: seq<Uuid>, matchtag: nat)
    requires Named(routes)
    ensures KeyOf(SentDown(routes, self, child), matchtag) == Tracked(self, Key(Sender(routes), matchtag))
    ensures KeyOf(CameUpFrom(SentDown(routes, self, child)), matchtag) == Key(Sender(routes), matchtag)
  {
    assert LastDeleted(SentDown(routes, self, child)) == routes + [self];
    assert LastDeleted(routes + [self]) == routes;
  }

  /** A request that somebody else sent. */
  predicate Foreign(self: Uuid, key: Key)
  {
    key.sender != "" && key.sender != self
  }

  /** Looking up an online child by its identity succeeds. */
  predicate Listed(v: View, uuid: Uuid)
  {
    uuid in v.childHash && v.childHash[uuid] < |v.children|
  }

  function AtOnline(w: World, uuid: Uuid, s: Status): World
  {
    if Listed(w.v, uuid) then w.(v := StatusChanged(w.v, w.v.childHash[uuid], s)) else w
  }

  function AfterHello(w: World, rank: int, uuid: Uuid, s: Status, versionOk: bool): World
  {
    if uuid in w.used then w else w.(v := Greeted(w.v, rank, uuid, s, versionOk), used := w.used + {uuid})
  }

  /** The child is online, and the key is new or its last use has been answered.  Nobody else has the
      broker's identity. */
  predicate CanSend(w: World, i: nat, key: Key)
  {
    && i < |w.v.children| && IsOnline(w.v.children[i].status)
    && key.sender != w.self
    && (key in w.at ==> Tracked(w.self, key) !in w.dropped && Count(w, key) >= w.uses[key])
  }

  /** The request named `key` is sent and tracked under `tracked`. */
  function SentAs(w: World, i: nat, key: Key, tracked: Key): World
    requires CanSend(w, i, key)
  {
    var u := w.v.children[i].uuid;
    w.(v := Sent(w.v, i, tracked),
       at := w.at[key := u], uses := w.uses + multiset{key}, open := w.open + {(u, key)})
  }

  function AfterSend(w: World, i: nat, routes: seq<Uuid>, matchtag: nat): World
  {
    if Named(routes) && CanSend(w, i, Key(Sender(routes), matchtag)) then
      SentAs(w, i, Key(Sender(routes), matchtag), KeyOf(SentDown(routes, w.self, w.v.children[i].uuid), matchtag))
    else w
  }

  function SendNamed(w: World, i: nat, key: Key): World
  {
    if CanSend(w, i, key) then SentAs(w, i, key, Tracked(w.self, key)) else w
  }

  function AfterCancel(w: World, i: nat, sender: Uuid): World
  {
    if i < |w.v.children| && IsOnline(w.v.children[i].status) then
      w.(v := Cancelled(w.v, i, sender), dropped := w.dropped + From(w.v.children[i].pending, sender))
    else w
  }

  function AfterRespond(w: World, uuid: Uuid, key: Key): World
  {
    if (uuid, key) in w.open
    then w.(open := w.open - {(uuid, key)}, flight := w.flight + {(uuid, key)})
    else w
  }

  /** The response to the request named `key` is received and looked up under `looked`. */
  function ReceivedAs(w: World, uuid: Uuid, key: Key, looked: Key): World
  {
    if (uuid, key) !in w.flight then w else
      var w1 := w.(flight := w.flight - {(uuid, key)});
      if Listed(w.v, uuid)
      then w1.(v := Answered(w.v, w.v.childHash[uuid], looked), replies := w.replies + multiset{key})
      else w1
  }

  /** The response comes with the routes that the request was sent with. */
  function AfterReceive(w: World, uuid: Uuid, routes: seq<Uuid>, matchtag: nat): World
  {
    if Named(routes) then
      ReceivedAs(w, uuid, Key(Sender(routes), matchtag), KeyOf(CameUpFrom(SentDown(routes, w.self, uuid)), matchtag))
    else w
  }

  function ReceiveNamed(w: World, uuid: Uuid, key: Key): World
  {
    ReceivedAs(w, uuid, key, key)
  }

  lemma SendByName(w: World, i: nat, routes: seq<Uuid>, matchtag: nat)
    requires Named(routes)
    ensures AfterSend(w, i, routes, matchtag) == SendNamed(w, i, Key(Sender(routes), matchtag))
  {
    if i < |w.v.children| {
      TrackedAsSent(w.self, w.v.children[i].uuid, routes, matchtag);
    }
  }

  lemma ReceiveByName(w: World, uuid: Uuid, routes: seq<Uuid>, matchtag: nat)
    requires Named(routes)
    ensures AfterReceive(w, uuid, routes, matchtag) == ReceiveNamed(w, uuid, Key(Sender(routes), matchtag))
  {
    TrackedAsSent(w.self, uuid, routes, matchtag);
  }

  function Next(w: World, step: Step): World
  {
    match step
    case Hello(rank, uuid, s, versionOk) => AfterHello(w, rank, uuid, s, versionOk)
    case Report(uuid, s) => AtOnline(w, uuid, s)
    case Bye(uuid) => AtOnline(w, uuid, OFFLINE)
    case Gone(uuid) => AtOnline(w, uuid, LOST)
    case Send(i, routes, matchtag) => AfterSend(w, i, routes, matchtag)
    case Cancel(i, sender) => AfterCancel(w, i, sender)
    case Respond(uuid, key) => AfterRespond(w, uuid, key)
    case Receive(uuid, routes, matchtag) => AfterReceive(w, uuid, routes, matchtag)
  }

  /** How many answers have been sent to the requests under this key. */
  function Count(w: World, k: Key): nat
  {
    w.v.failed[Tracked(w.self, k)] + w.replies[k]
  }

  /* ---- the invariant ---- */

  predicate Due(w: World, k: Key)
    requires k in w.at
  {
    (w.at[k], k) in w.open || (w.at[k], k) in w.flight
  }

  /** While the connection is up, a request is tracked until its response arrives; once it is down,
      every request that was still tracked has been answered. */
  ghost predicate Settled(w: World, k: Key)
    requires Valid(w.v) && k in w.at && Foreign(w.self, k)
  {
    var u := w.at[k];
    if u in w.v.childHash then
      && (k in w.v.children[w.v.childHash[u]].pending <==> Due(w, k) && k !in w.dropped)
      && w.uses[k] == Count(w, k) + (if Due(w, k) then 1 else 0)
    else
      && w.uses[k] - 1 <= Count(w, k) <= w.uses[k]
      && (k !in w.dropped ==> Count(w, k) == w.uses[k])
  }

  /** What travels on a connection that is up belongs to the last use of its key. */
  ghost predicate Travels(w: World, wire: set<(Uuid, Key)>)
  {
    forall p :: p in wire ==>
      && p.0 in w.used && p.1 in w.at
      && (p.0 in w.v.childHash && Foreign(w.self, p.1) ==> w.at[p.1] == p.0)
  }

  ghost predicate Tracks(w: World)
  {
    forall i, k :: 0 <= i < |w.v.children| && k in w.v.children[i].pending && Foreign(w.self, k) ==>
      k in w.at && w.at[k] == w.v.children[i].uuid
  }

  ghost predicate Known(w: World)
  {
    && (forall u :: u in w.v.childHash ==> u in w.used)
    && (forall k :: k in w.at ==> w.at[k] in w.used)
  }

  ghost predicate Frame(w: World)
  {
    && Travels(w, w.open)
    && Travels(w, w.flight)
    && (forall p :: p in w.open && p in w.flight ==> !Foreign(w.self, p.1))
    && Tracks(w)
    && Known(w)
    && (forall k :: k in w.dropped && Foreign(w.self, k) ==> k in w.at)
  }

  ghost predicate Inv(w: World)
  {
    && Valid(w.v)
    && Frame(w)
    && (forall k :: k in w.at && Foreign(w.self, k) ==> Settled(w, k))
    && (forall k :: k !in w.at && Foreign(w.self, k) ==> Count(w, k) == 0)
    && (forall k :: k in w.uses <==> k in w.at)
  }

  /* ---- changes of status ---- */

  /** Child `i`'s connection has gone down: its key leaves the index, and what was pending is failed. */
  ghost predicate WentDown(v: View, v1: View, i: nat)
    requires i < |v.children|
  {
    && |v1.children| == |v.children|
    && v1.childHash == v.childHash - {v.children[i].uuid}
    && (forall j :: 0 <= j < |v.children| && j != i ==> v1.children[j] == v.children[j])
    && v1.children[i].uuid == v.children[i].uuid
    && v1.children[i].pending == {}
    && v1.failed == v.failed + multiset(v.children[i].pending)
  }

  /** Index, trackers and failures are as they were. */
  ghost predicate SameTracking(v: View, v1: View)
  {
    && |v1.children| == |v.children|
    && v1.childHash == v.childHash
    && v1.failed == v.failed
    && (forall j :: 0 <= j < |v.children| ==> v1.children[j].pending == v.children[j].pending)
    && (forall j :: 0 <= j < |v.children| && v.children[j].pending != {} ==> v1.children[j].uuid == v.children[j].uuid)
  }

  lemma ChangeToOffline(v: View, i: nat, s: Status)
    requires i < |v.children| && IsOnline(v.children[i].status) && !IsOnline(s)
    ensures WentDown(v, StatusChanged(v, i, s), i)
  {
  }

  lemma ChangeOfOnline(v: View, i: nat, s: Status)
    requires i < |v.children| && (IsOnline(v.children[i].status) <==> IsOnline(s))
    ensures SameTracking(v, StatusChanged(v, i, s))
  {
  }

  lemma FrameAfterDown(w: World, v1: View, i: nat)
    requires Frame(w) && i < |w.v.children| && WentDown(w.v, v1, i)
    ensures Frame(w.(v := v1))
  {
  }

  lemma SettledAfterDown(w: World, v1: View, i: nat, k: Key)
    requires Valid(w.v) && Valid(v1) && Tracks(w) && i < |w.v.children| && IsOnline(w.v.children[i].status)
    requires WentDown(w.v, v1, i) && k in w.at && Foreign(w.self, k) && Settled(w, k)
    ensures Settled(w.(v := v1), k)
  {
    var u := w.at[k];
    var c := w.v.children[i];
    assert w.v.childHash[c.uuid] == i;
    if u == c.uuid {
      assert u !in v1.childHash;
    } else {
      assert k !in c.pending;
      assert v1.failed[k] == w.v.failed[k];
    }
  }

  lemma DownKeeps(w: World, v1: View, i: nat)
    requires Inv(w) && Valid(v1) && i < |w.v.children| && IsOnline(w.v.children[i].status) && WentDown(w.v, v1, i)
    ensures Inv(w.(v := v1))
  {
    FrameAfterDown(w, v1, i);
    forall k | k in w.at && Foreign(w.self, k)
      ensures Settled(w.(v := v1), k)
    {
      SettledAfterDown(w, v1, i, k);
    }
    forall k | k !in w.at && Foreign(w.self, k)
      ensures Count(w.(v := v1), k) == 0
    {
      assert Count(w, k) == 0 && k !in w.v.children[i].pending;
    }
  }

  lemma SettledSame(w: World, v1: View, k: Key)
    requires Valid(w.v) && Valid(v1) && SameTracking(w.v, v1) && k in w.at && Foreign(w.self, k) && Settled(w, k)
    ensures Settled(w.(v := v1), k)
  {
  }

  lemma FrameSame(w: World, v1: View)
    requires Frame(w) && SameTracking(w.v, v1)
    ensures Frame(w.(v := v1))
  {
  }

  lemma SameTrackingKeeps(w: World, v1: View)
    requires Inv(w) && Valid(v1) && SameTracking(w.v, v1)
    ensures Inv(w.(v := v1))
  {
    FrameSame(w, v1);
    forall k | k in w.at && Foreign(w.self, k)
      ensures Settled(w.(v := v1), k)
    {
      SettledSame(w, v1, k);
    }
  }

  lemma AtOnlineKeeps(w: World, u: Uuid, s: Status)
    requires Inv(w)
    ensures Inv(AtOnline(w, u, s))
  {
    if u in w.v.childHash {
      var i := w.v.childHash[u];
      StatusChangedKeeps(w.v, i, s);
      if IsOnline(s) {
        ChangeOfOnline(w.v, i, s);
        SameTrackingKeeps(w, StatusChanged(w.v, i, s));
      } else {
        ChangeToOffline(w.v, i, s);
        DownKeeps(w, StatusChanged(w.v, i, s), i);
      }
    }
  }

  /* ---- hello ---- */

  /** Child `i` is indexed under a new key. */
  ghost predicate CameUp(v: View, v1: View, i: nat, u: Uuid)
  {
    && |v1.children| == |v.children|
    && v1.childHash == v.childHash[u := i]
    && v1.failed == v.failed
    && (forall j :: 0 <= j < |v.children| ==> v1.children[j].pending == v.children[j].pending)
    && (forall j :: 0 <= j < |v.children| ==> v1.children[j].uuid == v.children[j].uuid)
  }

  lemma ChangeToOnline(v: View, i: nat, s: Status)
    requires i < |v.children| && !IsOnline(v.children[i].status) && IsOnline(s) && v.children[i].uuid !in v.childHash
    ensures CameUp(v, StatusChanged(v, i, s), i, v.children[i].uuid)
  {
  }

  lemma UpFrame(w: World, v1: View, i: nat, u: Uuid)
    requires Frame(w) && CameUp(w.v, v1, i, u) && u !in w.used
    ensures Frame(w.(v := v1, used := w.used + {u}))
  {
  }

  /** No request was sent on a connection that is only now coming up. */
  lemma UpKeeps(w: World, v1: View, i: nat, u: Uuid)
    requires Inv(w) && Valid(v1) && u !in w.used && CameUp(w.v, v1, i, u)
    ensures Inv(w.(v := v1, used := w.used + {u}))
  {
    UpFrame(w, v1, i, u);
    forall k | k in w.at && Foreign(w.self, k)
      ensures Settled(w.(v := v1, used := w.used + {u}), k)
    {
      assert Settled(w, k);
      assert w.at[k] != u;
    }
  }

  lemma UsedKeeps(w: World, u: Uuid)
    requires Inv(w)
    ensures Inv(w.(used := w.used + {u}))
  {
    forall k | k in w.at && Foreign(w.self, k)
      ensures Settled(w.(used := w.used + {u}), k)
    {
      assert Settled(w, k);
    }
  }

  lemma OldDroppedInv(w: World, i: nat)
    requires Inv(w) && i < |w.v.children|
    ensures Inv(w.(v := OldDropped(w.v, i)))
  {
    OldDroppedKeeps(w.v, i);
    if IsOnline(w.v.children[i].status) {
      ChangeToOffline(w.v, i, LOST);
      DownKeeps(w, OldDropped(w.v, i), i);
    } else {
      assert w.(v := OldDropped(w.v, i)) == w;
    }
  }

  lemma RecordedInv(w: World, i: nat, u: Uuid)
    requires Inv(w) && i < |w.v.children| && !IsOnline(w.v.children[i].status)
    ensures Inv(w.(v := Recorded(w.v, i, u)))
  {
    RecordingKeeps(w.v, i, u);
    SameTrackingKeeps(w, Recorded(w.v, i, u));
  }

  lemma IntroducedKeeps(w: World, i: nat, u: Uuid, s: Status)
    requires Inv(w) && i < |w.v.children| && !IsOnline(w.v.children[i].status)
    requires w.v.children[i].uuid == u && u !in w.used
    ensures Inv(w.(v := StatusChanged(w.v, i, s), used := w.used + {u}))
  {
    StatusChangedKeeps(w.v, i, s);
    var v1 := StatusChanged(w.v, i, s);
    if IsOnline(s) {
      ChangeToOnline(w.v, i, s);
      UpKeeps(w, v1, i, u);
    } else {
      ChangeOfOnline(w.v, i, s);
      SameTrackingKeeps(w, v1);
      UsedKeeps(w.(v := v1), u);
    }
  }

  lemma HelloKeeps(w: World, rank: int, u: Uuid, s: Status, versionOk: bool)
    requires Inv(w)
    ensures Inv(AfterHello(w, rank, u, s, versionOk))
  {
    var i := FindRank(w.v.children, rank);
    if u !in w.used {
      if i < 0 {
        UsedKeeps(w, u);
      } else {
        OldDroppedInv(w, i);
        OldDroppedKeeps(w.v, i);
        var w1 := w.(v := OldDropped(w.v, i));
        if versionOk {
          RecordedInv(w1, i, u);
          IntroducedKeeps(w1.(v := Recorded(w1.v, i, u)), i, u, s);
        } else {
          UsedKeeps(w1, u);
        }
      }
    }
  }

  /* ---- requests and responses ---- */

  /** A key that may be used is pending nowhere, and nothing under it travels on a connection that is up. */
  ghost predicate Free(w: World, key: Key)
  {
    && (forall i :: 0 <= i < |w.v.children| ==> key !in w.v.children[i].pending)
    && (forall p :: (p in w.open || p in w.flight) && p.1 == key ==> p.0 !in w.v.childHash)
  }

  lemma CanSendIsFree(w: World, i: nat, key: Key)
    requires Inv(w) && CanSend(w, i, key) && Foreign(w.self, key)
    ensures Free(w, key)
  {
    if key in w.at {
      assert Settled(w, key);
      forall j | 0 <= j < |w.v.children|
        ensures key !in w.v.children[j].pending
      {
        if IsOnline(w.v.children[j].status) {
          assert w.v.childHash[w.v.children[j].uuid] == j;
        }
      }
    }
  }

  lemma SendFrame(w: World, i: nat, key: Key)
    requires Frame(w) && Valid(w.v) && CanSend(w, i, key) && (Foreign(w.self, key) ==> Free(w, key))
    ensures Frame(SendNamed(w, i, key))
  {
    assert w.v.children[i].uuid in w.v.childHash;
  }

  lemma SendSettled(w: World, i: nat, key: Key, k: Key)
    requires Inv(w) && CanSend(w, i, key) && Valid(SendNamed(w, i, key).v)
    requires (k in w.at || k == key) && Foreign(w.self, k)
    ensures Settled(SendNamed(w, i, key), k)
  {
    if k in w.at {
      assert Settled(w, k);
    } else {
      assert Count(w, k) == 0 && w.uses[k] == 0;
    }
  }

  lemma SendKeeps(w: World, i: nat, key: Key)
    requires Inv(w)
    ensures Inv(SendNamed(w, i, key))
  {
    if CanSend(w, i, key) {
      SentKeeps(w.v, i, Tracked(w.self, key));
      if Foreign(w.self, key) {
        CanSendIsFree(w, i, key);
      }
      SendFrame(w, i, key);
      var w1 := SendNamed(w, i, key);
      forall k | k in w1.at && Foreign(w.self, k)
        ensures Settled(w1, k)
      {
        SendSettled(w, i, key, k);
      }
    }
  }

  lemma CancelFrame(w: World, i: nat, sender: Uuid)
    requires Frame(w) && i < |w.v.children|
    ensures Frame(AfterCancel(w, i, sender))
  {
  }

  lemma CancelSettled(w: World, i: nat, sender: Uuid, k: Key)
    requires Valid(w.v) && Valid(AfterCancel(w, i, sender).v) && Tracks(w)
    requires k in w.at && Foreign(w.self, k) && Settled(w, k)
    ensures Settled(AfterCancel(w, i, sender), k)
  {
  }

  lemma CancelKeeps(w: World, i: nat, sender: Uuid)
    requires Inv(w)
    ensures Inv(AfterCancel(w, i, sender))
  {
    if i < |w.v.children| && IsOnline(w.v.children[i].status) {
      var w1 := AfterCancel(w, i, sender);
      CancelledKeeps(w.v, i, sender);
      CancelFrame(w, i, sender);
      forall k | k in w.at && Foreign(w.self, k)
        ensures Settled(w1, k)
      {
        CancelSettled(w, i, sender, k);
      }
    }
  }

  lemma RespondKeeps(w: World, u: Uuid, key: Key)
    requires Inv(w)
    ensures Inv(AfterRespond(w, u, key))
  {
    if (u, key) in w.open {
      var w1 := AfterRespond(w, u, key);
      forall k | k in w1.at && Foreign(w.self, k)
        ensures Settled(w1, k)
      {
        assert Settled(w, k);
      }
    }
  }

  lemma ReceiveFrame(w: World, u: Uuid, key: Key)
    requires Frame(w) && Valid(w.v)
    ensures Frame(ReceiveNamed(w, u, key))
  {
  }

  lemma ReceiveSettled(w: World, u: Uuid, key: Key, k: Key)
    requires Valid(w.v) && Valid(ReceiveNamed(w, u, key).v) && Frame(w)
    requires k in w.at && Foreign(w.self, k) && Settled(w, k)
    ensures Settled(ReceiveNamed(w, u, key), k)
  {
    if (u, key) in w.flight && Listed(w.v, u) {
      assert Foreign(w.self, key) ==> w.at[key] == u;
    }
  }

  lemma ReceiveKeeps(w: World, u: Uuid, key: Key)
    requires Inv(w)
    ensures Inv(ReceiveNamed(w, u, key))
  {
    if (u, key) in w.flight {
      assert key in w.at;
      var w1 := ReceiveNamed(w, u, key);
      if u in w.v.childHash {
        AnsweredKeeps(w.v, w.v.childHash[u], key);
      }
      ReceiveFrame(w, u, key);
      forall k | k in w.at && Foreign(w.self, k)
        ensures Settled(w1, k)
      {
        ReceiveSettled(w, u, key, k);
      }
    }
  }

  lemma NextKeeps(w: World, step: Step)
    requires Inv(w)
    ensures Inv(Next(w, step))
  {
    match step
    case Hello(rank, uuid, s, versionOk) => HelloKeeps(w, rank, uuid, s, versionOk);
    case Report(uuid, s) => AtOnlineKeeps(w, uuid, s);
    case Bye(uuid) => AtOnlineKeeps(w, uuid, OFFLINE);
    case Gone(uuid) => AtOnlineKeeps(w, uuid, LOST);
    case Send(i, routes, matchtag) =>
      if Named(routes) {
        SendByName(w, i, routes, matchtag);
        SendKeeps(w, i, Key(Sender(routes), matchtag));
      }
    case Cancel(i, sender) => CancelKeeps(w, i, sender);
    case Respond(uuid, key) => RespondKeeps(w, uuid, key);
    case Receive(uuid, routes, matchtag) =>
      if Named(routes) {
        ReceiveByName(w, uuid, routes, matchtag);
        ReceiveKeeps(w, uuid, Key(Sender(routes), matchtag));
      }
  }

  /* ---- runs ---- */

  function Run(w: World, steps: seq<Step>): World
  {
    if steps == [] then w else
      var n := |steps| - 1;
      Next(Run(w, steps[..n]), steps[n])
  }

  /** After every step of every run the table of children is valid and every request accounted for. */
  lemma {:induction false} InvHolds(w: World, steps: seq<Step>)
    requires Inv(w)
    ensures Inv(Run(w, steps))
  {
    if steps != [] {
      var n := |steps| - 1;
      InvHolds(w, steps[..n]);
      NextKeeps(Run(w, steps[..n]), steps[n]);
    }
  }

  lemma {:induction false} SelfStays(w: World, steps: seq<Step>)
    ensures Run(w, steps).self == w.self
  {
    if steps != [] {
      SelfStays(w, steps[..|steps| - 1]);
    }
  }

  /** Nobody has said hello. */
  ghost predicate Start(w: World)
  {
    && Valid(w.v)
    && (forall i :: 0 <= i < |w.v.children| ==> !IsOnline(w.v.children[i].status))
    && w.v.failed == multiset{}
    && w == World(w.self, w.v, {}, map[], multiset{}, {}, {}, multiset{}, {})
  }

  lemma StartIsInv(w: World)
    requires Start(w)
    ensures Inv(w)
  {
  }

  ghost predicate Pending(w: World, k: Key)
  {
    exists i :: 0 <= i < |w.v.children| && Tracked(w.self, k) in w.v.children[i].pending
  }

  /** Every request under the key but the last has one answer, and the last has at most one.  It has one
      exactly if it is no longer pending, and it is pending only while the connection it was sent on is up.
      A request whose sender has disconnected is not pending and need not be answered. */
  ghost predicate AnsweredOnce(w: World, k: Key)
  {
    && w.uses[k] - 1 <= Count(w, k) <= w.uses[k]
    && (Tracked(w.self, k) !in w.dropped ==> w.uses[k] == Count(w, k) + (if Pending(w, k) then 1 else 0))
    && (Pending(w, k) ==> k in w.at && w.at[k] in w.v.childHash && Tracked(w.self, k) !in w.dropped)
  }

  lemma PendingIsUp(w: World, k: Key)
    requires Inv(w) && Foreign(w.self, k) && Pending(w, k)
    ensures k in w.at && w.at[k] in w.v.childHash && k in w.v.children[w.v.childHash[w.at[k]]].pending
  {
    var i :| 0 <= i < |w.v.children| && k in w.v.children[i].pending;
    assert w.v.childHash[w.v.children[i].uuid] == i;
  }

  /** Whatever happens, a request that somebody else sent and that went to a child is never answered twice,
      and it is answered as soon as it is no longer pending at an online child; also when its key is used
      again while a late response to the request before is still on its way. */
  lemma AnsweredExactlyOnce(w0: World, steps: seq<Step>, sender: Uuid, matchtag: nat)
    requires Start(w0) && sender != "" && sender != w0.self
    ensures AnsweredOnce(Run(w0, steps), Key(sender, matchtag))
  {
    var k := Key(sender, matchtag);
    StartIsInv(w0);
    InvHolds(w0, steps);
    SelfStays(w0, steps);
    var w := Run(w0, steps);
    if Pending(w, k) {
      PendingIsUp(w, k);
    }
    if k in w.at {
      assert Settled(w, k);
    }
  }

  /** A response ends the wait for the request with its sender and match tag at most: every other request
      that was pending still is. */
  lemma ResponseLeavesOthers(w: World, u: Uuid, routes: seq<Uuid>, matchtag: nat, sender: Uuid, other: nat)
    requires Valid(w.v) && Named(routes) && Sender(routes) != w.self && sender != w.self
    requires sender != Sender(routes) || other != matchtag
    ensures Pending(AfterReceive(w, u, routes, matchtag), Key(sender, other)) <==> Pending(w, Key(sender, other))
  {
    ReceiveByName(w, u, routes, matchtag);
    var k, looked := Tracked(w.self, Key(sender, other)), Key(Sender(routes), matchtag);
    var w1 := AfterReceive(w, u, routes, matchtag);
    assert k != looked;
    assert forall i :: 0 <= i < |w.v.children| ==> (k in w1.v.children[i].pending <==> k in w.v.children[i].pending);
  }

  ghost predicate Reaches(w0: World, w: World)
  {
    exists steps :: Run(w0, steps) == w
  }

  lemma ReachesStart(w0: World)
    ensures Reaches(w0, w0)
  {
    assert Run(w0, []) == w0;
  }

  lemma ReachesNext(w0: World, w: World, step: Step)
    requires Reaches(w0, w)
    ensures Reaches(w0, Next(w, step))
  {
    var steps :| Run(w0, steps) == w;
    assert (steps + [step])[..|steps|] == steps;
    assert Run(w0, steps + [step]) == Next(w, step);
  }

  /** Child 0 is online, and the broker has not used this match tag. */
  ghost predicate OwnUnused(w: World, k: Key)
  {
    && Listed(w.v, "child") && w.v.childHash["child"] == 0 && w.v.children[0].uuid == "child"
    && IsOnline(w.v.children[0].status) && k !in w.at && Count(w, k) == 0 && w.uses[k] == 0
  }

  /** Child 0 is online, and the broker has a request of its own pending there. */
  ghost predicate OwnPending(w: World, k: Key, answers: nat)
  {
    && Listed(w.v, "child") && w.v.childHash["child"] == 0 && IsOnline(w.v.children[0].status)
    && Tracked(w.self, k) in w.v.children[0].pending && Count(w, k) == answers && w.uses[k] == 1
  }

  lemma FirstChildGreeted(w0: World, k: Key) returns (w: World)
    requires Start(w0) && w0.v.children != []
    ensures Reaches(w0, w) && w.self == w0.self && OwnUnused(w, k)
  {
    var rank := w0.v.children[0].rank;
    FindRankUnique(w0.v.children, rank, 0);
    ReachesStart(w0);
    ReachesNext(w0, w0, Hello(rank, "child", FULL, true));
    w := AfterHello(w0, rank, "child", FULL, true);
  }

  lemma OwnIsSent(w0: World, w: World, k: Key) returns (w1: World)
    requires Reaches(w0, w) && OwnUnused(w, k) && k.sender == "" && w.self != ""
    ensures Reaches(w0, w1) && w1.self == w.self && OwnPending(w1, k, 0) && ("child", k) in w1.open
  {
    ReachesNext(w0, w, Send(0, [], k.matchtag));
    SendByName(w, 0, [], k.matchtag);
    w1 := SendNamed(w, 0, k);
  }

  lemma OwnIsAnswered(w0: World, w: World, k: Key) returns (w1: World)
    requires Reaches(w0, w) && OwnPending(w, k, 0) && ("child", k) in w.open
    ensures Reaches(w0, w1) && w1.self == w.self && OwnPending(w1, k, 0) && ("child", k) in w1.flight
  {
    ReachesNext(w0, w, Respond("child", k));
    w1 := AfterRespond(w, "child", k);
  }

  /** The response to the broker's own request does not stop its tracking. */
  lemma OwnStaysTracked(w0: World, w: World, k: Key) returns (w1: World)
    requires Reaches(w0, w) && OwnPending(w, k, 0) && ("child", k) in w.flight && w.self != "" && k.sender == ""
    ensures Reaches(w0, w1) && OwnPending(w1, k, 1)
  {
    assert Tracked(w.self, k) != k;
    ReachesNext(w0, w, Receive("child", [], k.matchtag));
    ReceiveByName(w, "child", [], k.matchtag);
    w1 := ReceiveNamed(w, "child", k);
  }

  lemma OwnIsFailed(w0: World, w: World, k: Key) returns (w1: World)
    requires Reaches(w0, w) && OwnPending(w, k, 1)
    ensures Reaches(w0, w1) && w1.uses[k] == 1 && Count(w1, k) == 2
  {
    ChangeToOffline(w.v, 0, LOST);
    ReachesNext(w0, w, Gone("child"));
    w1 := AtOnline(w, "child", LOST);
  }

  /** The first child says hello, gets a request of the broker's own, responds and is lost: the request is
      answered by the response and again by a made-up error. */
  lemma OwnAnsweredTwice(w0: World, k: Key) returns (w: World)
    requires Start(w0) && w0.v.children != [] && w0.self != "" && k.sender == ""
    ensures Reaches(w0, w) && w.uses[k] == 1 && Count(w, k) == 2
  {
    w := FirstChildGreeted(w0, k);
    w := OwnIsSent(w0, w, k);
    w := OwnIsAnswered(w0, w, k);
    w := OwnStaysTracked(w0, w, k);
    w := OwnIsFailed(w0, w, k);
  }

  /** Every run answers the requests under a key once exactly if they are not the broker's own. */
  lemma AnsweredOnceIff(w0: World, k: Key)
    requires Start(w0) && w0.v.children != [] && w0.self != "" && k.sender != w0.self
    ensures (forall steps :: AnsweredOnce(Run(w0, steps), k)) <==> k.sender != ""
  {
    if k.sender == "" {
      var w := OwnAnsweredTwice(w0, k);
      var steps :| Run(w0, steps) == w;
      assert !AnsweredOnce(Run(w0, steps), k);
    } else {
      forall steps
        ensures AnsweredOnce(Run(w0, steps), k)
      {
        AnsweredExactlyOnce(w0, steps, k.sender, k.matchtag);
      }
    }
  }

  lemma IdentityStaysDown(w: World, step: Step, u: Uuid)
    requires Inv(w) && u in w.used && u !in w.v.childHash
    ensures u in Next(w, step).used && u !in Next(w, step).v.childHash
  {
    if step.Hello? && step.uuid !in w.used {
      GreetedKeys(w.v, step.rank, step.uuid, step.status, step.versionOk, u);
    }
  }

  lemma {:induction false} StaysDown(w: World, steps: seq<Step>, u: Uuid)
    requires Inv(w) && u in w.used && u !in w.v.childHash
    ensures u in Run(w, steps).used && u !in Run(w, steps).v.childHash
  {
    if steps != [] {
      var n := |steps| - 1;
      StaysDown(w, steps[..n], u);
      InvHolds(w, steps[..n]);
      IdentityStaysDown(Run(w, steps[..n]), steps[n], u);
    }
  }

  /** A connection that went down never carries another answer, so a late response is dropped, however
      long it takes and whether or not the child has come back under a new identity. */
  lemma LateResponsesAreDropped(w: World, steps: seq<Step>, u: Uuid, routes: seq<Uuid>, matchtag: nat)
    requires Inv(w) && u in w.used && u !in w.v.childHash && Named(routes)
    ensures var w1 := Run(w, steps);
      AfterReceive(w1, u, routes, matchtag) == w1.(flight := w1.flight - {(u, Key(Sender(routes), matchtag))})
  {
    StaysDown(w, steps, u);
  }
}
