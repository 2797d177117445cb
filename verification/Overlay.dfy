/** One broker's view of its children: their recorded status, the index of those online, the requests
    it has sent them and not seen answered, and the summary status it reports to its own parent. */
module Overlay {

  type Uuid = string

  datatype Status = UNKNOWN | FULL | PARTIAL | DEGRADED | LOST | OFFLINE | OTHER(code: int)

  predicate IsOnline(s: Status)
  {
    s.FULL? || s.PARTIAL? || s.DEGRADED?
  }

  /** What identifies a request that expects a response: who sent it, and its match tag. */
  datatype Key = Key(sender: Uuid, matchtag: nat)

  /** The first route of a message names its sender.  A message without routes has the sender "". */
  function Sender(routes: seq<Uuid>): Uuid
  {
    if routes == [] then "" else routes[0]
  }

  function KeyOf(routes: seq<Uuid>, matchtag: nat): Key
  {
    Key(Sender(routes), matchtag)
  }

  /** No broker or client has the identity "". */
  predicate Named(routes: seq<Uuid>)
  {
    routes != [] ==> routes[0] != ""
  }

  predicate SameSender(a: seq<Uuid>, b: seq<Uuid>)
  {
    if a == [] then b == [] else b != [] && a[0] == b[0]
  }

  /** Two messages have the same key exactly if they have the same sender and the same match tag. */
  lemma KeysDistinguish(a: seq<Uuid>, m: nat, b: seq<Uuid>, n: nat)
    requires Named(a) && Named(b)
    ensures KeyOf(a, m) == KeyOf(b, n) <==> SameSender(a, b) && m == n
  {
  }

  /** A request that goes down gets the broker's own identity and that of the child as its last routes. */
  function SentDown(routes: seq<Uuid>, self: Uuid, child: Uuid): seq<Uuid>
  {
    routes + [self, child]
  }

  function LastDeleted(routes: seq<Uuid>): seq<Uuid>
  {
    if routes == [] then [] else routes[..|routes| - 1]
  }

  /** A response that came up loses its last two routes. */
  function CameUpFrom(routes: seq<Uuid>): seq<Uuid>
  {
    LastDeleted(LastDeleted(routes))
  }

  /** A request is looked up under the key it was tracked under exactly if it came with a route: one that
      the broker made itself is tracked under the broker's identity and looked up under no identity. */
  lemma KeysAgreeIff(routes: seq<Uuid>, self: Uuid, child: Uuid, matchtag: nat)
    requires self != ""
    ensures CameUpFrom(SentDown(routes, self, child)) == routes
    ensures
      var sent := SentDown(routes, self, child);
      KeyOf(sent, matchtag) == KeyOf(CameUpFrom(sent), matchtag) <==> routes != []
  {
    assert LastDeleted(SentDown(routes, self, child)) == routes + [self];
    assert LastDeleted(routes + [self]) == routes;
  }

  /** How handing a message to the socket ended: PeerGone is the error of an unreachable peer. */
  datatype SendResult = SendOk | PeerGone | SendError

  datatype Child = Child(rank: nat, uuid: Uuid, status: Status, pending: set<Key>)

  /* ---- the summary ---- */

  predicate Degrades(s: Status)
  {
    s.DEGRADED? || s.LOST?
  }

  predicate Dents(s: Status)
  {
    s.PARTIAL? || s.OFFLINE?
  }

  /** DEGRADED if some child is degraded or lost, else PARTIAL if some child is partial or offline,
      else FULL; the order of the children does not matter. */
  function Summary(cs: seq<Child>): (s: Status)
    ensures s.DEGRADED? <==> exists i :: 0 <= i < |cs| && Degrades(cs[i].status)
    ensures s.FULL? <==> forall i :: 0 <= i < |cs| ==> !Degrades(cs[i].status) && !Dents(cs[i].status)
    ensures s.DEGRADED? || s.PARTIAL? || s.FULL?
  {
    if exists i :: 0 <= i < |cs| && Degrades(cs[i].status) then DEGRADED
    else if exists i :: 0 <= i < |cs| && Dents(cs[i].status) then PARTIAL
    else FULL
  }

  /** The summary of a set of children listed in another order, or with repetitions, is the same. */
  lemma SummaryIgnoresOrder(cs: seq<Child>, ds: seq<Child>)
    requires forall c :: c in cs <==> c in ds
    ensures Summary(cs) == Summary(ds)
  {
    assert forall i :: 0 <= i < |cs| ==> cs[i] in ds;
    assert forall i :: 0 <= i < |ds| ==> ds[i] in cs;
  }

  /* ---- the view as a value ---- */

  /** `reports` is the status changes sent to the parent; `failed` the requests answered with a made-up
      error because the child they were sent to went away. */
  datatype View = View(
    rank: nat,
    children: seq<Child>,
    childHash: map<Uuid, nat>,
    status: Status,
    reports: seq<Status>,
    failed: multiset<Key>)

  /** The index maps exactly the identities of the online children, each to its child; and since the
      keys are compared with the children's own identity buffers, no such buffer has changed. */
  ghost predicate Indexed(hash: map<Uuid, nat>, cs: seq<Child>)
  {
    && (forall u :: u in hash ==> hash[u] < |cs| && cs[hash[u]].uuid == u && IsOnline(cs[hash[u]].status))
    && (forall i :: 0 <= i < |cs| && IsOnline(cs[i].status) ==> cs[i].uuid in hash && hash[cs[i].uuid] == i)
  }

  /** Nothing is pending at a child that is not online. */
  ghost predicate NothingPendingOffline(cs: seq<Child>)
  {
    forall i :: 0 <= i < |cs| && !IsOnline(cs[i].status) ==> cs[i].pending == {}
  }

  ghost predicate DistinctRanks(cs: seq<Child>)
  {
    forall i, j :: 0 <= i < j < |cs| ==> cs[i].rank != cs[j].rank
  }

  ghost predicate Valid(v: View)
  {
    && Indexed(v.childHash, v.children)
    && v.status == Summary(v.children)
    && NothingPendingOffline(v.children)
    && DistinctRanks(v.children)
  }

  function Resummarised(v: View): View
  {
    var s := Summary(v.children);
    if s == v.status then v
    else v.(status := s, reports := if v.rank > 0 then v.reports + [s] else v.reports)
  }

  /** The index after child `i` moves to status `s`. */
  function Reindexed(v: View, i: nat, s: Status): map<Uuid, nat>
    requires i < |v.children|
  {
    var c := v.children[i];
    if IsOnline(c.status) && !IsOnline(s) then v.childHash - {c.uuid}
    else if !IsOnline(c.status) && IsOnline(s) && c.uuid !in v.childHash then v.childHash[c.uuid := i]
    else v.childHash
  }

  function StatusChanged(v: View, i: nat, s: Status): View
    requires i < |v.children|
  {
    var c := v.children[i];
    if c.status == s then v else
      var gone := IsOnline(c.status) && !IsOnline(s);
      Resummarised(v.(
        childHash := Reindexed(v, i, s),
        children := v.children[i := c.(status := s, pending := if gone then {} else c.pending)],
        failed := if gone then v.failed + multiset(c.pending) else v.failed))
  }

  function FindRank(cs: seq<Child>, rank: int): (i: int)
    ensures -1 <= i < |cs|
    ensures i >= 0 ==> cs[i].rank == rank
    ensures i < 0 ==> forall j :: 0 <= j < |cs| ==> cs[j].rank != rank
  {
    if cs == [] then -1 else
      var n := |cs| - 1;
      if cs[n].rank == rank then n else FindRank(cs[..n], rank)
  }

  function Recorded(v: View, i: nat, uuid: Uuid): View
    requires i < |v.children|
  {
    v.(children := v.children[i := v.children[i].(uuid := uuid)])
  }

  /** The view once a crashed child's old connection has been dropped. */
  function OldDropped(v: View, i: nat): View
    requires i < |v.children|
  {
    if IsOnline(v.children[i].status) then StatusChanged(v, i, LOST) else v
  }

  /** A child says hello.  One that was online has crashed and come back: its old connection is lost
      first.  The identity is recorded only when the hello is accepted. */
  function Greeted(v: View, rank: int, uuid: Uuid, s: Status, versionOk: bool): View
  {
    var i := FindRank(v.children, rank);
    if i < 0 then v else
      if !versionOk then OldDropped(v, i) else StatusChanged(Recorded(OldDropped(v, i), i, uuid), i, s)
  }

  function Sent(v: View, i: nat, key: Key): View
    requires i < |v.children|
  {
    v.(children := v.children[i := v.children[i].(pending := v.children[i].pending + {key})])
  }

  function Answered(v: View, i: nat, key: Key): View
    requires i < |v.children|
  {
    v.(children := v.children[i := v.children[i].(pending := v.children[i].pending - {key})])
  }

  /** A message has been offered to child `i`. */
  function Offer(v: View, i: nat, result: SendResult): (v1: View)
    requires i < |v.children|
    ensures |v1.children| == |v.children|
  {
    if result.PeerGone? then OldDropped(v, i) else v
  }

  /** A child has said goodbye: it is offline once the reply is on its way, and lost if the reply finds
      it unreachable. */
  function Departed(v: View, uuid: Uuid, reply: SendResult): View
    requires Indexed(v.childHash, v.children)
  {
    if uuid !in v.childHash || reply.SendError? then v
    else StatusChanged(v, v.childHash[uuid], if reply.SendOk? then OFFLINE else LOST)
  }

  function From(keys: set<Key>, sender: Uuid): set<Key>
  {
    set k | k in keys && k.sender == sender
  }

  /** A requester has disconnected: its requests are no longer tracked. */
  function Cancelled(v: View, i: nat, sender: Uuid): View
    requires i < |v.children|
  {
    var c := v.children[i];
    v.(children := v.children[i := c.(pending := c.pending - From(c.pending, sender))])
  }

  /** The child that has said goodbye is recorded as offline, or as lost if it did not get the reply; every
      other child is as it was. */
  lemma DepartedIsGone(v: View, uuid: Uuid, reply: SendResult)
    requires Indexed(v.childHash, v.children)
    ensures var v1 := Departed(v, uuid, reply);
      && |v1.children| == |v.children|
      && (forall j :: 0 <= j < |v.children| && !(uuid in v.childHash && j == v.childHash[uuid]) ==>
            v1.children[j] == v.children[j])
      && (uuid in v.childHash ==>
            v1.children[v.childHash[uuid]].status ==
            if reply == SendOk then OFFLINE else if reply == PeerGone then LOST else v.children[v.childHash[uuid]].status)
  {
  }

  /** Exactly the requests of other senders stay tracked. */
  lemma CancelledKeepsOthers(v: View, i: nat, sender: Uuid, k: Key)
    requires i < |v.children|
    ensures var v1 := Cancelled(v, i, sender);
      && |v1.children| == |v.children|
      && (forall j :: 0 <= j < |v.children| && j != i ==> v1.children[j] == v.children[j])
      && (k in v1.children[i].pending <==> k in v.children[i].pending && k.sender != sender)
  {
  }

  /** A response ends the tracking of the request with its sender and match tag, and of no other. */
  lemma ResponseEndsOne(v: View, i: nat, self: Uuid, routes: seq<Uuid>, m: nat, other: seq<Uuid>, n: nat)
    requires i < |v.children| && Named(routes) && Named(other)
    requires self != "" && Sender(routes) != self && Sender(other) != self
    ensures var u := v.children[i].uuid;
      var v1 := Answered(v, i, KeyOf(CameUpFrom(SentDown(routes, self, u)), m));
      KeyOf(SentDown(other, self, u), n) in v1.children[i].pending
      <==> && KeyOf(SentDown(other, self, u), n) in v.children[i].pending
           && !(routes != [] && SameSender(routes, other) && m == n)
  {
    var u := v.children[i].uuid;
    KeysAgreeIff(routes, self, u, m);
    KeysDistinguish(routes, m, other, n);
  }

  /* ---- what every operation keeps ---- */

  lemma ReindexedIsIndexed(v: View, i: nat, s: Status, c1: Child)
    requires Indexed(v.childHash, v.children) && i < |v.children|
    requires !IsOnline(v.children[i].status) && IsOnline(s) ==> v.children[i].uuid !in v.childHash
    requires c1.uuid == v.children[i].uuid && c1.status == s
    ensures Indexed(Reindexed(v, i, s), v.children[i := c1])
  {
  }

  lemma OneChildChanged(cs: seq<Child>, i: nat, c1: Child)
    requires i < |cs| && NothingPendingOffline(cs) && DistinctRanks(cs)
    requires c1.rank == cs[i].rank && (!IsOnline(c1.status) ==> c1.pending == {})
    ensures NothingPendingOffline(cs[i := c1]) && DistinctRanks(cs[i := c1])
  {
  }

  lemma ResummarisedIsValid(v: View)
    requires Indexed(v.childHash, v.children) && NothingPendingOffline(v.children) && DistinctRanks(v.children)
    ensures Valid(Resummarised(v))
  {
  }

  /** A change of status keeps the whole invariant, provided a child that comes online does not have
      the identity of another online child. */
  lemma StatusChangedKeeps(v: View, i: nat, s: Status)
    requires Valid(v) && i < |v.children|
    requires !IsOnline(v.children[i].status) && IsOnline(s) ==> v.children[i].uuid !in v.childHash
    ensures Valid(StatusChanged(v, i, s))
  {
    var c := v.children[i];
    if c.status != s {
      var gone := IsOnline(c.status) && !IsOnline(s);
      var c1 := c.(status := s, pending := if gone then {} else c.pending);
      ReindexedIsIndexed(v, i, s, c1);
      OneChildChanged(v.children, i, c1);
      ResummarisedIsValid(v.(
        childHash := Reindexed(v, i, s),
        children := v.children[i := c1],
        failed := if gone then v.failed + multiset(c.pending) else v.failed));
    }
  }

  lemma SummarySameStatus(cs: seq<Child>, ds: seq<Child>)
    requires |cs| == |ds| && forall i :: 0 <= i < |cs| ==> ds[i].status == cs[i].status
    ensures Summary(cs) == Summary(ds)
  {
  }

  /** Writing a new identity is harmless because the child is not online, so its buffer is no key. */
  lemma RecordingKeeps(v: View, i: nat, uuid: Uuid)
    requires Valid(v) && i < |v.children| && !IsOnline(v.children[i].status)
    ensures Valid(Recorded(v, i, uuid))
  {
    SummarySameStatus(v.children, Recorded(v, i, uuid).children);
    OneChildChanged(v.children, i, v.children[i].(uuid := uuid));
  }

  /** The identity a hello brings is that of some other child already online. */
  ghost predicate Clashes(v: View, rank: int, uuid: Uuid, s: Status)
  {
    IsOnline(s) && exists j :: 0 <= j < |v.children| && HasIdentity(v.children[j], rank, uuid)
  }

  predicate HasIdentity(c: Child, otherThan: int, uuid: Uuid)
  {
    c.rank != otherThan && IsOnline(c.status) && c.uuid == uuid
  }

  lemma OldDroppedKeeps(v: View, i: nat)
    requires Valid(v) && i < |v.children|
    ensures Valid(OldDropped(v, i)) && |OldDropped(v, i).children| == |v.children|
    ensures !IsOnline(OldDropped(v, i).children[i].status) && OldDropped(v, i).children[i].rank == v.children[i].rank
    ensures forall j :: 0 <= j < |v.children| && j != i ==> OldDropped(v, i).children[j] == v.children[j]
  {
    if IsOnline(v.children[i].status) {
      StatusChangedKeeps(v, i, LOST);
    }
  }

  /** A hello keeps the invariant, including when it follows a crash, exactly if it does not bring the
      identity of another online child. */
  lemma GreetedIsValidIff(v: View, rank: int, uuid: Uuid, s: Status)
    requires Valid(v) && FindRank(v.children, rank) >= 0
    ensures Valid(Greeted(v, rank, uuid, s, true)) <==> !Clashes(v, rank, uuid, s)
  {
    var i := FindRank(v.children, rank);
    OldDroppedKeeps(v, i);
    var v1 := OldDropped(v, i);
    RecordingKeeps(v1, i, uuid);
    var v2 := Recorded(v1, i, uuid);
    assert Greeted(v, rank, uuid, s, true) == StatusChanged(v2, i, s);
    if Clashes(v, rank, uuid, s) {
      ClashBreaksIndex(v2, i, s, rank, uuid) by {
        var j :| 0 <= j < |v.children| && HasIdentity(v.children[j], rank, uuid);
        assert v2.children[j] == v.children[j];
      }
    } else {
      if IsOnline(s) && uuid in v2.childHash {
        KeyMeansClash(v, v2, i, rank, uuid, s);
      }
      StatusChangedKeeps(v2, i, s);
    }
  }

  lemma KeyMeansClash(v: View, v2: View, i: nat, rank: int, uuid: Uuid, s: Status)
    requires Valid(v2) && i < |v.children| == |v2.children| && v2.children[i].rank == rank && IsOnline(s)
    requires !IsOnline(v2.children[i].status) && uuid in v2.childHash
    requires forall j :: 0 <= j < |v.children| && j != i ==> v2.children[j] == v.children[j]
    ensures Clashes(v, rank, uuid, s)
  {
    var j := v2.childHash[uuid];
    assert v2.children[j].uuid == uuid && IsOnline(v2.children[j].status);
    assert v2.children[j] == v.children[j];
    assert HasIdentity(v.children[j], rank, uuid);
  }

  lemma ClashBreaksIndex(v2: View, i: nat, s: Status, rank: int, uuid: Uuid)
    requires Valid(v2) && i < |v2.children| && v2.children[i].rank == rank && v2.children[i].uuid == uuid
    requires !IsOnline(v2.children[i].status) && IsOnline(s)
    requires exists j :: 0 <= j < |v2.children| && HasIdentity(v2.children[j], rank, uuid)
    ensures !Valid(StatusChanged(v2, i, s))
  {
    var j :| 0 <= j < |v2.children| && HasIdentity(v2.children[j], rank, uuid);
    var v3 := StatusChanged(v2, i, s);
    assert v3.children[i].uuid == uuid && IsOnline(v3.children[i].status);
    assert v3.children[j].uuid == uuid && IsOnline(v3.children[j].status);
  }

  lemma RejectedHelloKeeps(v: View, rank: int, uuid: Uuid, s: Status)
    requires Valid(v)
    ensures Valid(Greeted(v, rank, uuid, s, false))
  {
    var i := FindRank(v.children, rank);
    if i >= 0 && IsOnline(v.children[i].status) {
      StatusChangedKeeps(v, i, LOST);
    }
  }

  /** The reply to a hello goes to the socket it came from; if that finds an online child unreachable, the
      child is lost. */
  function Replied(v: View, sender: Uuid, reply: SendResult): View
  {
    if reply.PeerGone? && sender in v.childHash && v.childHash[sender] < |v.children|
    then StatusChanged(v, v.childHash[sender], LOST)
    else v
  }

  /** Whether a hello is accepted. */
  predicate Admitted(v: View, sender: Uuid, closing: bool, authorized: bool, rank: int, versionOk: bool)
  {
    sender !in v.childHash && !closing && authorized && versionOk && FindRank(v.children, rank) >= 0
  }

  function HelloHandled(v: View, sender: Uuid, closing: bool, authorized: bool, rank: int, uuid: Uuid, s: Status,
                        versionOk: bool, reply: SendResult): View
  {
    if sender in v.childHash || closing || !authorized then v
    else Replied(Greeted(v, rank, uuid, s, versionOk), sender, reply)
  }

  lemma RepliedKeeps(v: View, sender: Uuid, reply: SendResult)
    requires Valid(v)
    ensures Valid(Replied(v, sender, reply))
  {
    if reply.PeerGone? && sender in v.childHash {
      StatusChangedKeeps(v, v.childHash[sender], LOST);
    }
  }

  /** A hello adds no key to the index but the identity it brings. */
  lemma GreetedKeys(v: View, rank: int, uuid: Uuid, s: Status, versionOk: bool, u: Uuid)
    requires u !in v.childHash && u != uuid
    ensures u !in Greeted(v, rank, uuid, s, versionOk).childHash
  {
    var i := FindRank(v.children, rank);
    if i >= 0 {
      var v1 := OldDropped(v, i);
      assert u !in v1.childHash;
      assert u !in Reindexed(Recorded(v1, i, uuid), i, s);
    }
  }

  /** A hello, with its reply, keeps the table valid exactly if it is not accepted or does not bring the
      identity of another online child. */
  lemma HelloKeepsIff(v: View, sender: Uuid, closing: bool, authorized: bool, rank: int, uuid: Uuid, s: Status,
                      versionOk: bool, reply: SendResult)
    requires Valid(v)
    ensures Valid(HelloHandled(v, sender, closing, authorized, rank, uuid, s, versionOk, reply))
       <==> (Admitted(v, sender, closing, authorized, rank, versionOk) ==> !Clashes(v, rank, uuid, s))
  {
    var v1 := Greeted(v, rank, uuid, s, versionOk);
    if sender !in v.childHash && !closing && authorized {
      if versionOk && FindRank(v.children, rank) >= 0 {
        GreetedIsValidIff(v, rank, uuid, s);
      } else {
        RejectedHelloKeeps(v, rank, uuid, s);
      }
      if Valid(v1) {
        RepliedKeeps(v1, sender, reply);
      } else {
        ClashIsForeign(v, sender, rank, uuid, s);
        GreetedKeys(v, rank, uuid, s, versionOk, sender);
      }
    }
  }

  lemma ClashIsForeign(v: View, sender: Uuid, rank: int, uuid: Uuid, s: Status)
    requires Valid(v) && Clashes(v, rank, uuid, s) && sender !in v.childHash
    ensures uuid != sender
  {
    var j :| 0 <= j < |v.children| && HasIdentity(v.children[j], rank, uuid);
    assert v.children[j].uuid in v.childHash;
  }

  /** A broker says hello with its own socket identity, and then the table always stays valid. */
  lemma HelloOfItsSenderKeeps(v: View, sender: Uuid, closing: bool, authorized: bool, rank: int, s: Status,
                              versionOk: bool, reply: SendResult)
    requires Valid(v)
    ensures Valid(HelloHandled(v, sender, closing, authorized, rank, sender, s, versionOk, reply))
  {
    HelloKeepsIff(v, sender, closing, authorized, rank, sender, s, versionOk, reply);
    if Admitted(v, sender, closing, authorized, rank, versionOk) && Clashes(v, rank, sender, s) {
      ClashIsForeign(v, sender, rank, sender, s);
    }
  }

  function OneOnline(): View
  {
    View(0, [Child(1, "a", FULL, {}), Child(2, "", OFFLINE, {})], map["a" := 0], PARTIAL, [], multiset{})
  }

  /** With another identity than its socket's it need not: here the index loses one of two online children. */
  lemma ForeignIdentityBreaksIndex()
    ensures Valid(OneOnline())
    ensures !Valid(HelloHandled(OneOnline(), "b", false, true, 2, "a", FULL, true, SendOk))
  {
    var v := OneOnline();
    assert Dents(v.children[1].status);
    assert FindRank(v.children, 2) == 1;
    assert HasIdentity(v.children[0], 2, "a");
    HelloKeepsIff(v, "b", false, true, 2, "a", FULL, true, SendOk);
  }

  lemma SentKeeps(v: View, i: nat, key: Key)
    requires Valid(v) && i < |v.children| && IsOnline(v.children[i].status)
    ensures Valid(Sent(v, i, key))
  {
    SummarySameStatus(v.children, Sent(v, i, key).children);
  }

  lemma AnsweredKeeps(v: View, i: nat, key: Key)
    requires Valid(v) && i < |v.children|
    ensures Valid(Answered(v, i, key))
  {
    SummarySameStatus(v.children, Answered(v, i, key).children);
  }

  lemma CancelledKeeps(v: View, i: nat, sender: Uuid)
    requires Valid(v) && i < |v.children|
    ensures Valid(Cancelled(v, i, sender))
  {
    SummarySameStatus(v.children, Cancelled(v, i, sender).children);
  }

  function Offered(c: Child, result: SendResult): Child
  {
    if result.PeerGone? && IsOnline(c.status) then c.(status := LOST, pending := {}) else c
  }

  /** The requests that fail because their child turns out to be unreachable. */
  function FailedBy(cs: seq<Child>, results: seq<SendResult>): multiset<Key>
    requires |cs| == |results|
  {
    if cs == [] then multiset{} else
      var n := |cs| - 1;
      FailedBy(cs[..n], results[..n]) + multiset(cs[n].pending - Offered(cs[n], results[n]).pending)
  }

  /** The children that get the message, in order. */
  function Reached(cs: seq<Child>, results: seq<SendResult>): (r: seq<nat>)
    requires |cs| == |results|
    ensures forall i :: i in r <==> 0 <= i < |cs| && IsOnline(cs[i].status) && results[i].SendOk?
  {
    if cs == [] then [] else
      var n := |cs| - 1;
      var r := Reached(cs[..n], results[..n]);
      if IsOnline(cs[n].status) && results[n].SendOk? then r + [n] else r
  }

  /** The children after the first `n` have been offered a message. */
  function AllOffered(cs: seq<Child>, results: seq<SendResult>, n: nat): (ds: seq<Child>)
    requires n <= |cs| == |results|
    ensures |ds| == |cs|
  {
    seq(|cs|, i requires 0 <= i < |cs| => if i < n then Offered(cs[i], results[i]) else cs[i])
  }

  /** What a broker other than rank 0 reports when its summary goes from `s` to `t`. */
  function Report(rank: nat, s: Status, t: Status): seq<Status>
  {
    if s == t || rank == 0 then [] else [t]
  }

  /** The reports made while the first `n` children are offered a message: one at each change. */
  function ReportsBy(rank: nat, cs: seq<Child>, results: seq<SendResult>, n: nat): seq<Status>
    requires n <= |cs| == |results|
  {
    if n == 0 then [] else
      var k := n - 1;
      ReportsBy(rank, cs, results, k)
        + Report(rank, Summary(AllOffered(cs, results, k)), Summary(AllOffered(cs, results, n)))
  }

  /** `v1` is `v` after child `i` has been offered a message. */
  ghost predicate OfferMade(v: View, v1: View, i: nat, result: SendResult)
  {
    && i < |v.children| && Valid(v1) && v1.rank == v.rank
    && v1.reports == v.reports + Report(v.rank, v.status, v1.status)
    && v1.children == v.children[i := Offered(v.children[i], result)]
    && v1.failed == v.failed + multiset(v.children[i].pending - v1.children[i].pending)
  }

  lemma OfferIsMade(v: View, i: nat, result: SendResult)
    requires Valid(v) && i < |v.children| && Valid(Offer(v, i, result))
    ensures OfferMade(v, Offer(v, i, result), i, result)
  {
    var c := v.children[i];
    if result.PeerGone? && IsOnline(c.status) {
      assert c.pending - {} == c.pending;
    } else {
      assert c.pending - c.pending == {};
    }
  }

  /** `v1` is `v` after the first `n` children have been offered a message: an unreachable one is lost
      and its requests are failed, the others are as they were, and `sentTo` got it. */
  ghost predicate OffersMade(v: View, v1: View, results: seq<SendResult>, sentTo: seq<nat>, n: nat)
  {
    && n <= |v.children| == |results| && Valid(v1) && v1.rank == v.rank
    && v1.children == AllOffered(v.children, results, n)
    && v1.reports == v.reports + ReportsBy(v.rank, v.children, results, n)
    && v1.failed == v.failed + FailedBy(v.children[..n], results[..n])
    && sentTo == Reached(v.children[..n], results[..n])
  }

  lemma OneMoreChild(cs: seq<Child>, results: seq<SendResult>, n: nat)
    requires n < |cs| == |results|
    ensures FailedBy(cs[..n + 1], results[..n + 1])
         == FailedBy(cs[..n], results[..n]) + multiset(cs[n].pending - Offered(cs[n], results[n]).pending)
    ensures var r := Reached(cs[..n], results[..n]);
            Reached(cs[..n + 1], results[..n + 1]) == if IsOnline(cs[n].status) && results[n].SendOk? then r + [n] else r
  {
    assert cs[..n + 1][..n] == cs[..n] && results[..n + 1][..n] == results[..n];
  }

  lemma OneMoreInPlace(cs: seq<Child>, results: seq<SendResult>, n: nat)
    requires n < |cs| == |results|
    ensures AllOffered(cs, results, n)[n] == cs[n]
    ensures AllOffered(cs, results, n + 1) == AllOffered(cs, results, n)[n := Offered(cs[n], results[n])]
  {
  }

  lemma OneMoreReport(rank: nat, cs: seq<Child>, results: seq<SendResult>, n: nat, r0: seq<Status>, r1: seq<Status>)
    requires n < |cs| == |results| && r1 == r0 + ReportsBy(rank, cs, results, n)
    ensures r0 + ReportsBy(rank, cs, results, n + 1)
         == r1 + Report(rank, Summary(AllOffered(cs, results, n)), Summary(AllOffered(cs, results, n + 1)))
  {
  }

  lemma OneMoreOffered(v: View, v1: View, v2: View, results: seq<SendResult>, sentTo: seq<nat>, n: nat)
    requires n < |v.children| && OffersMade(v, v1, results, sentTo, n) && OfferMade(v1, v2, n, results[n])
    ensures var ok := IsOnline(v1.children[n].status) && results[n] == SendOk;
            OffersMade(v, v2, results, if ok then sentTo + [n] else sentTo, n + 1)
  {
    OneMoreChild(v.children, results, n);
    OneMoreInPlace(v.children, results, n);
    OneMoreReport(v.rank, v.children, results, n, v.reports, v1.reports);
  }

  /* ---- the object ---- */

  class Overlay {
    const rank: nat
    const uuid: Uuid
    const children: array<Child>
    var childHash: map<Uuid, nat>
    var status: Status
    var reports: seq<Status>
    ghost var failed: multiset<Key>

    ghost function Value(): View
      reads this, children
    {
      View(rank, children[..], childHash, status, reports, failed)
    }

    /** The children start offline. */
    constructor (self: nat, id: Uuid, childRanks: seq<nat>)
      requires forall i, j :: 0 <= i < j < |childRanks| ==> childRanks[i] != childRanks[j]
      ensures rank == self && uuid == id && fresh(children) && children.Length == |childRanks|
      ensures forall i :: 0 <= i < |childRanks| ==> children[i] == Child(childRanks[i], "", OFFLINE, {})
      ensures Valid(Value())
    {
      rank, uuid := self, id;
      children := new Child[|childRanks|](i requires 0 <= i < |childRanks| => Child(childRanks[i], "", OFFLINE, {}));
      childHash, reports, failed := map[], [], multiset{};
      status := if |childRanks| > 0 then PARTIAL else FULL;
      new;
      assert |childRanks| > 0 ==> Dents(children[..][0].status);
    }

    /** One pass over the children. */
    method Summarise() returns (s: Status)
      ensures s == Summary(children[..])
    {
      s := FULL;
      for i := 0 to children.Length
        invariant s == Summary(children[..i])
      {
        assert children[..i + 1] == children[..i] + [children[i]];
        SummaryOneMore(children[..i], children[i]);
        match children[i].status {
          case FULL =>
          case PARTIAL | OFFLINE => if s == FULL { s := PARTIAL; }
          case DEGRADED | LOST => if s != DEGRADED { s := DEGRADED; }
          case UNKNOWN =>
          case OTHER(_) =>
        }
      }
      assert children[..children.Length] == children[..];
    }

    /** Recomputes the summary, and reports it to the parent if it changed. */
    method SubtreeStatusUpdate()
      modifies this`status, this`reports
      ensures Value() == Resummarised(old(Value()))
    {
      var s := Summarise();
      if status != s {
        status := s;
        if rank > 0 {
          reports := reports + [s];
        }
      }
    }

    method ChildStatusUpdate(i: nat, s: Status)
      requires i < children.Length
      modifies this, children
      ensures Value() == StatusChanged(old(Value()), i, s)
    {
      var c := children[i];
      if c.status != s {
        if IsOnline(c.status) && !IsOnline(s) {
          childHash := childHash - {c.uuid};
          failed := failed + multiset(c.pending);
          children[i] := children[i].(pending := {});
        } else if !IsOnline(c.status) && IsOnline(s) {
          if c.uuid !in childHash {
            childHash := childHash[c.uuid := i];
          }
        }
        children[i] := children[i].(status := s);
        ghost var gone := IsOnline(c.status) && !IsOnline(s);
        assert children[..] == old(children[..])[i := c.(status := s, pending := if gone then {} else c.pending)];
        SubtreeStatusUpdate();
      }
    }

    method LookupByRank(r: int) returns (i: int)
      requires DistinctRanks(children[..])
      ensures i == FindRank(children[..], r)
    {
      for k := 0 to children.Length
        invariant forall j :: 0 <= j < k ==> children[j].rank != r
      {
        if children[k].rank == r {
          FindRankUnique(children[..], r, k);
          return k;
        }
      }
      return -1;
    }

    /** A hello, from the peer with the socket identity `sender`.  One that comes from an online peer, or
        while shutting down, is not handled as a hello. */
    method HelloRequest(sender: Uuid, closing: bool, authorized: bool, r: int, uuid: Uuid, s: Status,
                        versionOk: bool, reply: SendResult) returns (accepted: bool)
      requires Valid(Value())
      modifies this, children
      ensures accepted <==> Admitted(old(Value()), sender, closing, authorized, r, versionOk)
      ensures Value() == HelloHandled(old(Value()), sender, closing, authorized, r, uuid, s, versionOk, reply)
      ensures Valid(Value()) <==> (accepted ==> !Clashes(old(Value()), r, uuid, s))
      ensures sender == uuid ==> Valid(Value())
    {
      HelloKeepsIff(Value(), sender, closing, authorized, r, uuid, s, versionOk, reply);
      HelloOfItsSenderKeeps(Value(), sender, closing, authorized, r, s, versionOk, reply);
      if sender in childHash || closing || !authorized {
        return false;
      }
      accepted := Greet(r, uuid, s, versionOk);
      if reply == PeerGone && sender in childHash && childHash[sender] < children.Length {
        ChildStatusUpdate(childHash[sender], LOST);
      }
    }

    method Greet(r: int, uuid: Uuid, s: Status, versionOk: bool) returns (accepted: bool)
      requires DistinctRanks(children[..])
      modifies this, children
      ensures Value() == Greeted(old(Value()), r, uuid, s, versionOk)
      ensures accepted <==> versionOk && FindRank(old(children[..]), r) >= 0
    {
      var i := LookupByRank(r);
      if i < 0 {
        return false;
      }
      if IsOnline(children[i].status) {
        ChildStatusUpdate(i, LOST);
      }
      if !versionOk {
        return false;
      }
      children[i] := children[i].(uuid := uuid);
      ChildStatusUpdate(i, s);
      return true;
    }

    /** A status report from a child; one whose identity is not in the index is ignored. */
    method ControlStatus(uuid: Uuid, s: Status)
      requires Valid(Value())
      modifies this, children
      ensures uuid in old(childHash) ==> Value() == StatusChanged(old(Value()), old(childHash)[uuid], s)
      ensures uuid !in old(childHash) ==> Value() == old(Value())
      ensures Valid(Value())
    {
      if uuid in childHash {
        assert children[..][childHash[uuid]].uuid == uuid;
        StatusChangedKeeps(Value(), childHash[uuid], s);
        ChildStatusUpdate(childHash[uuid], s);
      }
    }

    /** Hands a message to the socket for child `i`, whose identity is on top of its routes; an
        unreachable peer that is online is lost. */
    method SendMsgChild(i: nat, result: SendResult)
      requires Valid(Value()) && i < children.Length
      modifies this, children
      ensures Value() == Offer(old(Value()), i, result)
      ensures Valid(Value())
    {
      if result == PeerGone && IsOnline(children[i].status) {
        StatusChangedKeeps(Value(), i, LOST);
        ChildStatusUpdate(i, LOST);
      }
    }

    /** A child says goodbye, and is offline once the reply is on its way. */
    method Goodbye(uuid: Uuid, reply: SendResult) returns (ok: bool)
      requires Valid(Value())
      modifies this, children
      ensures ok <==> uuid in old(childHash) && reply == SendOk
      ensures Value() == Departed(old(Value()), uuid, reply) && Valid(Value())
    {
      if uuid !in childHash {
        return false;
      }
      var i := childHash[uuid];
      assert children[..][i].uuid == uuid;
      SendMsgChild(i, reply);
      if reply != SendOk {
        return false;
      }
      StatusChangedKeeps(Value(), i, OFFLINE);
      ChildStatusUpdate(i, OFFLINE);
      return true;
    }

    /** Sends a request that expects a response to a child, and tracks it, as it was sent, if it was. */
    method SendRequestToChild(i: nat, routes: seq<Uuid>, matchtag: nat, result: SendResult) returns (ok: bool)
      requires Valid(Value()) && i < children.Length
      modifies this, children
      ensures ok <==> IsOnline(old(children[i]).status) && result == SendOk
      ensures ok ==>
        Value() == Sent(old(Value()), i, KeyOf(SentDown(routes, uuid, old(children[i]).uuid), matchtag))
      ensures !ok ==> Value() == Offer(old(Value()), i, result)
      ensures Valid(Value())
    {
      if !IsOnline(children[i].status) {
        return false;
      }
      var key := KeyOf(SentDown(routes, uuid, children[i].uuid), matchtag);
      SendMsgChild(i, result);
      if result != SendOk {
        return false;
      }
      SentKeeps(Value(), i, key);
      children[i] := children[i].(pending := children[i].pending + {key});
      assert children[..] == old(children[..])[i := children[i]];
      return true;
    }

    method McastChildOne(i: nat, result: SendResult) returns (ok: bool)
      requires Valid(Value()) && i < children.Length
      modifies this, children
      ensures OfferMade(old(Value()), Value(), i, result)
      ensures ok <==> IsOnline(old(children[i]).status) && result == SendOk
    {
      ok := IsOnline(children[i].status) && result == SendOk;
      var c := children[i];
      ghost var v := Value();
      if IsOnline(c.status) {
        SendMsgChild(i, result);
      }
      OfferIsMade(v, i, result);
    }

    /** Broadcasts a message to the children that are online; one that is unreachable is lost, and
        keeps no other from getting the message. */
    method McastChild(results: seq<SendResult>) returns (sentTo: seq<nat>)
      requires Valid(Value()) && |results| == children.Length
      modifies this, children
      ensures OffersMade(old(Value()), Value(), results, sentTo, children.Length)
    {
      sentTo := [];
      ghost var v := Value();
      for i := 0 to children.Length
        invariant OffersMade(v, Value(), results, sentTo, i)
      {
        ghost var v1 := Value();
        var ok := McastChildOne(i, results[i]);
        OneMoreOffered(v, v1, Value(), results, sentTo, i);
        sentTo := if ok then sentTo + [i] else sentTo;
      }
    }

    /** Sends a child word that a requester has disconnected. */
    method SendDisconnectToChild(i: nat, sender: Uuid, result: SendResult) returns (ok: bool)
      requires Valid(Value()) && i < children.Length
      modifies this, children
      ensures ok <==> IsOnline(old(children[i]).status) && result == SendOk
      ensures ok ==> Value() == Cancelled(old(Value()), i, sender)
      ensures !ok ==> Value() == Offer(old(Value()), i, result)
      ensures Valid(Value())
    {
      if !IsOnline(children[i].status) {
        return false;
      }
      SendMsgChild(i, result);
      if result != SendOk {
        return false;
      }
      CancelledKeeps(Value(), i, sender);
      var c := children[i];
      children[i] := c.(pending := c.pending - From(c.pending, sender));
      assert children[..] == old(children[..])[i := children[i]];
      return true;
    }

    /** A final response from a child; from any other peer it is dropped.  The routes are as received,
        and the request is looked up under those that remain. */
    method ResponseFrom(peer: Uuid, routes: seq<Uuid>, matchtag: nat) returns (forwarded: bool)
      requires Valid(Value())
      modifies children
      ensures forwarded <==> peer in childHash
      ensures forwarded ==>
        && childHash[peer] < children.Length
        && Value() == Answered(old(Value()), childHash[peer], KeyOf(CameUpFrom(routes), matchtag))
      ensures !forwarded ==> Value() == old(Value())
      ensures Valid(Value())
    {
      if peer !in childHash {
        return false;
      }
      var i := childHash[peer];
      assert children[..][i].uuid == peer;
      var key := KeyOf(CameUpFrom(routes), matchtag);
      AnsweredKeeps(Value(), i, key);
      children[i] := children[i].(pending := children[i].pending - {key});
      assert children[..] == old(children[..])[i := children[i]];
      return true;
    }
  }

  lemma SummaryOneMore(cs: seq<Child>, c: Child)
    ensures Summary(cs + [c])
         == if Degrades(c.status) then DEGRADED else if Dents(c.status) && Summary(cs) == FULL then PARTIAL else Summary(cs)
  {
    var all := cs + [c];
    assert all[|cs|] == c;
    assert forall i :: 0 <= i < |cs| ==> all[i] == cs[i];
  }

  lemma {:induction false} FindRankUnique(cs: seq<Child>, rank: int, k: nat)
    requires DistinctRanks(cs) && k < |cs| && cs[k].rank == rank
    ensures FindRank(cs, rank) == k
  {
    var n := |cs| - 1;
    if k < n {
      FindRankUnique(cs[..n], rank, k);
    }
  }
}
