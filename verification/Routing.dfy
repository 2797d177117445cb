/** Requests and responses on the tree: which way a broker sends a message, and what happens to the
    stack of route identities it carries. */
module Routing {
  import opened Tree
  import opened Topology
  import Overlay

  /* ---- distance ---- */

  /** The lowest rank whose subtree holds both. */
  function Meet(parent: seq<int>, a: int, b: int): (m: int)
    requires IsTree(parent) && IsRank(parent, a) && IsRank(parent, b)
    ensures IsRank(parent, m)
    decreases Level(parent, a)
  {
    EveryRankIsUnderRoot(parent, b);
    if Within(parent, b, a) then a else Meet(parent, parent[a], b)
  }

  function Dist(parent: seq<int>, a: int, b: int): int
    requires IsTree(parent) && IsRank(parent, a) && IsRank(parent, b)
  {
    Level(parent, a) + Level(parent, b) - 2 * Level(parent, Meet(parent, a, b))
  }

  predicate Adjacent(parent: seq<int>, a: int, b: int)
    requires IsRank(parent, a) && IsRank(parent, b)
  {
    parent[a] == b || parent[b] == a
  }

  /** Crossing a link changes the distance to `b` by exactly one. */
  lemma LinkDistance(parent: seq<int>, c: int, b: int)
    requires IsTree(parent) && IsRank(parent, c) && c != 0 && IsRank(parent, b)
    ensures Within(parent, b, c) ==> Dist(parent, parent[c], b) == Dist(parent, c, b) + 1
    ensures !Within(parent, b, c) ==> Dist(parent, c, b) == Dist(parent, parent[c], b) + 1
  {
    if Within(parent, b, c) {
      if b != c {
        BelowTransitive(parent, b, c, parent[c]);
      }
    }
  }

  lemma {:induction false} DistIsNatural(parent: seq<int>, a: int, b: int)
    requires IsTree(parent) && IsRank(parent, a) && IsRank(parent, b)
    ensures Dist(parent, a, b) >= 0
    ensures Dist(parent, a, b) == 0 <==> a == b
    decreases Level(parent, a)
  {
    if a == b {
    } else if Within(parent, b, a) {
      BelowIsDeeper(parent, b, a);
    } else {
      EveryRankIsUnderRoot(parent, b);
      LinkDistance(parent, a, b);
      DistIsNatural(parent, parent[a], b);
    }
  }

  /** Where a request addressed to `d` goes next: down if `d` is below, else up. */
  function NextHop(parent: seq<int>, a: int, d: int): int
    requires IsTree(parent) && IsRank(parent, a)
  {
    var c := ChildRoute(parent, a, d);
    if c >= 0 then c else parent[a]
  }

  /** The next hop is the one neighbour that is nearer; every other neighbour is farther. */
  lemma NextHopIsTheNearerNeighbour(parent: seq<int>, a: int, d: int)
    requires IsTree(parent) && IsRank(parent, a) && IsRank(parent, d) && a != d
    ensures IsRank(parent, NextHop(parent, a, d)) && Adjacent(parent, a, NextHop(parent, a, d))
    ensures Dist(parent, NextHop(parent, a, d), d) == Dist(parent, a, d) - 1
    ensures forall n :: IsRank(parent, n) && Adjacent(parent, a, n) && n != NextHop(parent, a, d) ==>
      Dist(parent, n, d) == Dist(parent, a, d) + 1
  {
    ChildRouteIsTheOnlyWayDown(parent, a, d);
    var hop := NextHop(parent, a, d);
    EveryRankIsUnderRoot(parent, d);
    if Below(parent, d, a) {
      assert hop in Children(parent, a);
      LinkDistance(parent, hop, d);
    } else {
      assert a != 0;
      LinkDistance(parent, a, d);
    }
    forall n | IsRank(parent, n) && Adjacent(parent, a, n) && n != hop
      ensures Dist(parent, n, d) == Dist(parent, a, d) + 1
    {
      if parent[n] == a {
        assert n in Children(parent, a);
        assert n != 0;
        LinkDistance(parent, n, d);
      } else {
        assert a != 0;
        LinkDistance(parent, a, d);
      }
    }
  }

  /** The ranks a request from `a` to `d` visits. */
  function Path(parent: seq<int>, a: int, d: int): (path: seq<int>)
    requires IsTree(parent) && IsRank(parent, a) && IsRank(parent, d)
    ensures |path| > 0 && path[0] == a
    decreases Dist(parent, a, d)
  {
    DistIsNatural(parent, a, d);
    if a == d then [a] else
      NextHopIsTheNearerNeighbour(parent, a, d);
      [a] + Path(parent, NextHop(parent, a, d), d)
  }

  ghost predicate IsWalk(parent: seq<int>, w: seq<int>)
  {
    && |w| > 0
    && (forall i :: 0 <= i < |w| ==> IsRank(parent, w[i]))
    && (forall i :: 0 <= i < |w| - 1 ==> IsLink(parent, w, i))
  }

  predicate IsLink(parent: seq<int>, w: seq<int>, i: int)
    requires 0 <= i < |w| - 1 && IsRank(parent, w[i]) && IsRank(parent, w[i + 1])
  {
    Adjacent(parent, w[i], w[i + 1])
  }

  lemma WalkFrom(parent: seq<int>, a: int, w: seq<int>)
    requires IsWalk(parent, w) && IsRank(parent, a) && Adjacent(parent, a, w[0])
    ensures IsWalk(parent, [a] + w)
  {
    var all := [a] + w;
    assert forall i :: 1 <= i < |all| ==> all[i] == w[i - 1];
    forall i | 0 <= i < |all| - 1
      ensures IsLink(parent, all, i)
    {
      if i > 0 {
        assert IsLink(parent, w, i - 1);
      }
    }
  }

  lemma {:induction false} PathIsAWalk(parent: seq<int>, a: int, d: int)
    requires IsTree(parent) && IsRank(parent, a) && IsRank(parent, d)
    ensures IsWalk(parent, Path(parent, a, d))
    ensures Path(parent, a, d)[|Path(parent, a, d)| - 1] == d
    ensures |Path(parent, a, d)| == Dist(parent, a, d) + 1
    decreases Dist(parent, a, d)
  {
    DistIsNatural(parent, a, d);
    if a != d {
      NextHopIsTheNearerNeighbour(parent, a, d);
      var rest := Path(parent, NextHop(parent, a, d), d);
      PathIsAWalk(parent, NextHop(parent, a, d), d);
      WalkFrom(parent, a, rest);
      assert Path(parent, a, d) == [a] + rest;
    }
  }

  /** No walk between two ranks is shorter than the path, and no other walk is as short: the path is
      the unique tree path. */
  lemma {:induction false} PathIsTheShortestWalk(parent: seq<int>, w: seq<int>)
    requires IsTree(parent) && IsWalk(parent, w)
    ensures |w| >= |Path(parent, w[0], w[|w| - 1])|
    ensures |w| == |Path(parent, w[0], w[|w| - 1])| ==> w == Path(parent, w[0], w[|w| - 1])
    decreases |w|
  {
    var a, d := w[0], w[|w| - 1];
    PathIsAWalk(parent, a, d);
    DistIsNatural(parent, a, d);
    if |w| > 1 {
      var rest := w[1..];
      assert IsLink(parent, w, 0);
      forall i | 0 <= i < |rest| - 1
        ensures IsLink(parent, rest, i)
      {
        assert IsLink(parent, w, i + 1);
      }
      PathIsTheShortestWalk(parent, rest);
      PathIsAWalk(parent, rest[0], d);
      if a != d {
        NextHopIsTheNearerNeighbour(parent, a, d);
        assert w == [a] + rest;
      }
    }
  }

  /* ---- the network ---- */

  type Uuid = Overlay.Uuid
  type SendResult = Overlay.SendResult

  /** The tree with its brokers' identities, the services and local clients of each, and the state of
      each link: `online[c]` is what `c`'s parent records of `c`, `connected[c]` whether `c` can send to
      its parent. */
  datatype Net = Net(
    parent: seq<int>,
    uuid: seq<Uuid>,
    services: seq<set<string>>,
    clients: seq<set<Uuid>>,
    online: seq<bool>,
    connected: seq<bool>)

  ghost predicate WellFormed(net: Net)
  {
    && IsTree(net.parent)
    && |net.uuid| == |net.services| == |net.clients| == |net.online| == |net.connected| == |net.parent|
    && (forall r, s :: 0 <= r < s < |net.uuid| ==> net.uuid[r] != net.uuid[s])
    && (forall r, s :: 0 <= r < |net.uuid| && 0 <= s < |net.uuid| ==> net.uuid[s] !in net.clients[r])
  }

  function OneBroker(): Net
  {
    Net([-1], ["a"], [{}], [{}], [true], [true])
  }

  lemma OneBrokerIsANet()
    ensures WellFormed(OneBroker())
  {
    assert Levels(OneBroker().parent, [0]);
  }

  type Network = net: Net | WellFormed(net) ghost witness (OneBrokerIsANet(); OneBroker())

  /** The link from `r` to its neighbour `s` is up in that direction, as far as `r` knows. */
  predicate Up(net: Network, r: int, s: int)
    requires IsRank(net.parent, r) && IsRank(net.parent, s)
  {
    if net.parent[r] == s then net.connected[r] else net.online[s]
  }

  datatype NodeId = Any | Rank(rank: nat)

  /** EOTHER stands for any other error a socket may give. */
  datatype Errno = ENOSYS | EHOSTUNREACH | EOTHER

  /** A request: its address, the flag that asks for a broker above the address, the service wanted,
      and the identities of the hops behind it, most recent last. */
  datatype Request = Request(nodeid: NodeId, upstream: bool, service: string, routes: seq<Uuid>)

  datatype Decision = Local | SendUp | SendDown(child: int) | Fail(errno: Errno)

  /** What a broker does with a request. */
  function Decide(net: Network, r: int, q: Request): (d: Decision)
    requires IsRank(net.parent, r)
    ensures d.SendUp? ==> r != 0 && net.connected[r]
    ensures d.SendDown? ==> IsRank(net.parent, d.child) && net.parent[d.child] == r
  {
    var up := if r != 0 && net.connected[r] then SendUp else Fail(EHOSTUNREACH);
    if q.upstream && q.nodeid == Rank(r) then up
    else if q.upstream || q.nodeid.Any? then
      if q.service in net.services[r] then Local
      else if up.SendUp? then up else Fail(ENOSYS)
    else if q.nodeid.rank == r then
      if q.service in net.services[r] then Local else Fail(ENOSYS)
    else
      var c := ChildRoute(net.parent, r, q.nodeid.rank);
      ChildRouteIsTheOnlyWayDown(net.parent, r, q.nodeid.rank);
      if c < 0 then up
      else if net.online[c] then SendDown(c) else Fail(EHOSTUNREACH)
  }

  /** How sending a request ended. */
  datatype Sent = InService | Above | BelowAt(child: int) | Failed(errno: Errno)

  /** The error of a socket that did not take a message. */
  function SocketError(result: SendResult): Errno
    requires !result.SendOk?
  {
    if result.PeerGone? then EHOSTUNREACH else EOTHER
  }

  /** A broker that looks for the service on the way up says it does not exist when it cannot go on. */
  predicate Searching(r: nat, q: Request)
  {
    q.nodeid != Rank(r) && (q.upstream || q.nodeid.Any?)
  }

  /** The result of carrying out a decision when the socket may reject the message. */
  function Outcome(net: Network, r: int, q: Request, result: SendResult): Sent
    requires IsRank(net.parent, r)
  {
    match Decide(net, r, q)
    case Local => InService
    case SendUp =>
      if result.SendOk? then Above
      else if Searching(r, q) && result.PeerGone? then Failed(ENOSYS)
      else Failed(SocketError(result))
    case SendDown(c) => if result.SendOk? then BelowAt(c) else Failed(SocketError(result))
    case Fail(e) => Failed(e)
  }

  /* The sockets.  A broker's downstream socket takes the last route off to select the child it sends
     to, and puts the sender's identity on what it receives; the upstream socket does neither. */
  function Push(routes: seq<Uuid>, id: Uuid): seq<Uuid>
  {
    routes + [id]
  }

  function DeleteLast(routes: seq<Uuid>): seq<Uuid>
  {
    if routes == [] then [] else routes[..|routes| - 1]
  }

  /** The routes on the message object once the broker has prepared it for the child. */
  function PreparedDown(net: Network, r: int, c: int, routes: seq<Uuid>): seq<Uuid>
    requires IsRank(net.parent, r) && IsRank(net.parent, c)
  {
    Push(Push(routes, net.uuid[r]), net.uuid[c])
  }

  /** The routes with which a request arrives at the child, or at the parent. */
  function ArrivesBelow(net: Network, r: int, c: int, routes: seq<Uuid>): seq<Uuid>
    requires IsRank(net.parent, r) && IsRank(net.parent, c)
  {
    DeleteLast(PreparedDown(net, r, c, routes))
  }

  function ArrivesAbove(net: Network, r: int, routes: seq<Uuid>): seq<Uuid>
    requires IsRank(net.parent, r)
  {
    Push(routes, net.uuid[r])
  }

  datatype Flight = At(rank: int, request: Request) | Served(rank: int, request: Request)
                  | Refused(rank: int, request: Request, errno: Errno)

  /** One hop, when the socket takes the message or not. */
  function Hop(net: Network, f: Flight, socket: SendResult): (g: Flight)
    requires IsRank(net.parent, f.rank)
    ensures IsRank(net.parent, g.rank)
  {
    if !f.At? then f else
      var r, q := f.rank, f.request;
      match Outcome(net, r, q, socket)
      case InService => Served(r, q)
      case Above => At(net.parent[r], q.(routes := ArrivesAbove(net, r, q.routes)))
      case BelowAt(c) => At(c, q.(routes := ArrivesBelow(net, r, c, q.routes)))
      case Failed(e) => Refused(r, q, e)
  }

  predicate Hopped(net: Network, fs: seq<Flight>, sockets: seq<SendResult>, i: int)
    requires 0 <= i < |fs| - 1 == |sockets| && IsRank(net.parent, fs[i].rank)
  {
    fs[i + 1] == Hop(net, fs[i], sockets[i])
  }

  /** The flight of a request, hop by hop; `sockets[i]` is how the send of hop `i`, if there is one, ends. */
  ghost predicate IsFlight(net: Network, fs: seq<Flight>, sockets: seq<SendResult>)
  {
    && |fs| == |sockets| + 1
    && (forall i :: 0 <= i < |fs| ==> IsRank(net.parent, fs[i].rank))
    && (forall i :: 0 <= i < |fs| - 1 ==> Hopped(net, fs, sockets, i))
  }

  /** Every request has a flight, whatever the sockets do. */
  lemma {:induction false} FlightGoesOn(net: Network, f: Flight, sockets: seq<SendResult>) returns (fs: seq<Flight>)
    requires IsRank(net.parent, f.rank)
    ensures IsFlight(net, fs, sockets) && fs[0] == f
  {
    if sockets == [] {
      fs := [f];
    } else {
      var n := |sockets| - 1;
      var before := FlightGoesOn(net, f, sockets[..n]);
      fs := before + [Hop(net, before[n], sockets[n])];
      forall i | 0 <= i < |fs| - 1
        ensures Hopped(net, fs, sockets, i)
      {
        assert i < n ==> Hopped(net, before, sockets[..n], i);
      }
    }
  }

  /** The identities of the first `n` ranks of a walk. */
  function Behind(net: Network, w: seq<int>, n: nat): (ids: seq<Uuid>)
    requires n <= |w| && forall i :: 0 <= i < |w| ==> 0 <= w[i] < |net.uuid|
    ensures |ids| == n
    ensures forall i :: 0 <= i < n ==> ids[i] == net.uuid[w[i]]
  {
    if n == 0 then [] else Behind(net, w, n - 1) + [net.uuid[w[n - 1]]]
  }

  lemma {:induction false} PathTail(parent: seq<int>, a: int, d: int, n: nat)
    requires IsTree(parent) && IsRank(parent, a) && IsRank(parent, d) && n < Dist(parent, a, d)
    ensures |Path(parent, a, d)| == Dist(parent, a, d) + 1
    ensures IsRank(parent, Path(parent, a, d)[n]) && Path(parent, a, d)[n] != d
    ensures Path(parent, a, d)[n + 1] == NextHop(parent, Path(parent, a, d)[n], d)
    decreases n
  {
    PathIsAWalk(parent, a, d);
    DistIsNatural(parent, a, d);
    NextHopIsTheNearerNeighbour(parent, a, d);
    if n > 0 {
      PathTail(parent, NextHop(parent, a, d), d, n - 1);
    }
  }

  /** The i-th link of a walk takes the request. */
  predicate Takes(net: Network, w: seq<int>, sockets: seq<SendResult>, i: int)
    requires 0 <= i < |w| - 1 && IsRank(net.parent, w[i]) && IsRank(net.parent, w[i + 1])
  {
    Up(net, w[i], w[i + 1]) && i < |sockets| && sockets[i].SendOk?
  }

  /** The first `n` links of a walk take the request. */
  ghost predicate AllTake(net: Network, w: seq<int>, sockets: seq<SendResult>, n: nat)
    requires IsWalk(net.parent, w) && n < |w|
  {
    forall i :: 0 <= i < n ==> Takes(net, w, sockets, i)
  }

  /** The request as it is once it has come to the n-th rank of a walk. */
  function Along(net: Network, q: Request, w: seq<int>, n: nat): Request
    requires n <= |w| && forall i :: 0 <= i < |w| ==> 0 <= w[i] < |net.uuid|
  {
    q.(routes := q.routes + Behind(net, w, n))
  }

  lemma AlongOneMore(net: Network, q: Request, w: seq<int>, n: nat)
    requires n < |w| && forall i :: 0 <= i < |w| ==> 0 <= w[i] < |net.uuid|
    ensures Along(net, q, w, 0) == q
    ensures Along(net, q, w, n + 1) == Along(net, q, w, n).(routes := Along(net, q, w, n).routes + [net.uuid[w[n]]])
  {
    assert q.routes + [] == q.routes;
    assert q.routes + Behind(net, w, n + 1) == q.routes + Behind(net, w, n) + [net.uuid[w[n]]];
  }

  /** The error of a send on a link that did not take the request. */
  function SendErrno(up: bool, socket: SendResult): Errno
  {
    if up && socket.SendError? then EOTHER else EHOSTUNREACH
  }

  /** What one hop of a request to another rank does, in any state of the links. */
  lemma AddressedHop(net: Network, r: int, q: Request, socket: SendResult)
    requires IsRank(net.parent, r)
    requires !q.upstream && q.nodeid.Rank? && IsRank(net.parent, q.nodeid.rank) && q.nodeid.rank != r
    ensures var s := NextHop(net.parent, r, q.nodeid.rank);
      && IsRank(net.parent, s)
      && Hop(net, At(r, q), socket)
         == if Up(net, r, s) && socket.SendOk? then At(s, q.(routes := q.routes + [net.uuid[r]]))
            else Refused(r, q, SendErrno(Up(net, r, s), socket))
  {
    var d := q.nodeid.rank;
    ChildRouteIsTheOnlyWayDown(net.parent, r, d);
    NextHopIsTheNearerNeighbour(net.parent, r, d);
    EveryRankIsUnderRoot(net.parent, d);
    var c := ChildRoute(net.parent, r, d);
    if c >= 0 {
      assert c in Children(net.parent, r);
      if r != 0 {
        LinkIsOneWay(net.parent, c);
      }
      assert ArrivesBelow(net, r, c, q.routes) == q.routes + [net.uuid[r]];
    }
  }

  /** A request addressed to rank d follows the tree path as long as the links take it: after n hops it is
      at the path's n-th rank, and carries the identities of the ranks before it. */
  lemma {:induction false} AddressedFollowsPath(net: Network, a: int, q: Request, path: seq<int>, fs: seq<Flight>,
                                                sockets: seq<SendResult>, n: nat)
    requires IsRank(net.parent, a) && !q.upstream && q.nodeid.Rank? && IsRank(net.parent, q.nodeid.rank)
    requires path == Path(net.parent, a, q.nodeid.rank) && IsWalk(net.parent, path)
    requires IsFlight(net, fs, sockets) && fs[0] == At(a, q) && n < |path| && n < |fs|
    requires AllTake(net, path, sockets, n)
    ensures fs[n] == At(path[n], Along(net, q, path, n))
  {
    if n == 0 {
      AlongOneMore(net, q, path, 0);
    } else {
      var k := n - 1;
      assert Takes(net, path, sockets, k);
      AddressedFollowsPath(net, a, q, path, fs, sockets, k);
      PathIsAWalk(net.parent, a, q.nodeid.rank);
      PathTail(net.parent, a, q.nodeid.rank, k);
      AlongOneMore(net, q, path, k);
      AddressedHop(net, path[k], Along(net, q, path, k), sockets[k]);
      assert Hopped(net, fs, sockets, k);
    }
  }

  /** At the first link that does not take it, it is refused there: unreachable, if the link is down or the
      peer is gone. */
  lemma AddressedStops(net: Network, a: int, q: Request, path: seq<int>, fs: seq<Flight>, sockets: seq<SendResult>, n: nat)
    requires IsRank(net.parent, a) && !q.upstream && q.nodeid.Rank? && IsRank(net.parent, q.nodeid.rank)
    requires path == Path(net.parent, a, q.nodeid.rank) && IsWalk(net.parent, path)
    requires IsFlight(net, fs, sockets) && fs[0] == At(a, q) && n + 1 < |path| && n + 1 < |fs|
    requires AllTake(net, path, sockets, n) && !Takes(net, path, sockets, n)
    ensures fs[n + 1]
         == Refused(path[n], Along(net, q, path, n), SendErrno(Up(net, path[n], path[n + 1]), sockets[n]))
  {
    AddressedFollowsPath(net, a, q, path, fs, sockets, n);
    PathIsAWalk(net.parent, a, q.nodeid.rank);
    PathTail(net.parent, a, q.nodeid.rank, n);
    AddressedHop(net, path[n], Along(net, q, path, n), sockets[n]);
    assert Hopped(net, fs, sockets, n);
  }

  /** If all take it, it is served at d after exactly the tree distance, or refused there if d lacks the
      service. */
  lemma AddressedArrives(net: Network, a: int, q: Request, path: seq<int>, fs: seq<Flight>, sockets: seq<SendResult>)
    requires IsRank(net.parent, a) && !q.upstream && q.nodeid.Rank? && IsRank(net.parent, q.nodeid.rank)
    requires path == Path(net.parent, a, q.nodeid.rank) && IsWalk(net.parent, path)
    requires IsFlight(net, fs, sockets) && fs[0] == At(a, q) && |fs| > |path|
    requires AllTake(net, path, sockets, |path| - 1)
    ensures |path| == Dist(net.parent, a, q.nodeid.rank) + 1
    ensures var d, q1 := q.nodeid.rank, Along(net, q, path, |path| - 1);
      fs[|path|] == if q.service in net.services[d] then Served(d, q1) else Refused(d, q1, ENOSYS)
  {
    var n := |path| - 1;
    PathIsAWalk(net.parent, a, q.nodeid.rank);
    AddressedFollowsPath(net, a, q, path, fs, sockets, n);
    assert Hopped(net, fs, sockets, n);
  }

  /** The n-th ancestor. */
  function Ancestor(parent: seq<int>, r: int, n: nat): (a: int)
    requires IsTree(parent) && IsRank(parent, r) && n <= Level(parent, r)
    ensures IsRank(parent, a) && Level(parent, a) == Level(parent, r) - n
  {
    if n == 0 then r else parent[Ancestor(parent, r, n - 1)]
  }

  lemma {:induction false} AncestorIsWithin(parent: seq<int>, r: int, n: nat)
    requires IsTree(parent) && IsRank(parent, r) && n <= Level(parent, r)
    ensures Within(parent, r, Ancestor(parent, r, n))
  {
    if n > 0 {
      AncestorIsWithin(parent, r, n - 1);
      var a := Ancestor(parent, r, n - 1);
      if r != a {
        BelowTransitive(parent, r, a, parent[a]);
      }
    }
  }

  /** The ranks from `r` up to its n-th ancestor. */
  function Climb(parent: seq<int>, r: int, n: nat): (w: seq<int>)
    requires IsTree(parent) && IsRank(parent, r) && n <= Level(parent, r)
    ensures |w| == n + 1
    ensures forall i :: 0 <= i <= n ==> w[i] == Ancestor(parent, r, i)
  {
    if n == 0 then [r] else Climb(parent, r, n - 1) + [Ancestor(parent, r, n)]
  }

  lemma ClimbIsAWalk(parent: seq<int>, r: int, n: nat)
    requires IsTree(parent) && IsRank(parent, r) && n <= Level(parent, r)
    ensures IsWalk(parent, Climb(parent, r, n))
  {
    var w := Climb(parent, r, n);
    forall i | 0 <= i < |w| - 1
      ensures IsLink(parent, w, i)
    {
      assert w[i + 1] == parent[Ancestor(parent, r, i)];
    }
  }

  /** A request that looks for its service on the way up: to any node, or flagged upstream. */
  predicate Looks(q: Request)
  {
    q.upstream || q.nodeid.Any?
  }

  /** Broker `r` would serve the request: one flagged upstream of a rank skips that rank. */
  predicate Serves(net: Network, r: int, q: Request)
    requires IsRank(net.parent, r)
  {
    q.service in net.services[r] && !(q.upstream && q.nodeid == Rank(r))
  }

  /** The request goes up from `r`, if it can: it looks further, or is addressed to no rank at all. */
  predicate Climbs(net: Network, r: int, q: Request)
    requires IsRank(net.parent, r)
  {
    if Looks(q) then !Serves(net, r, q) else q.nodeid.rank >= |net.parent|
  }

  lemma ClimbingHop(net: Network, r: int, q: Request, socket: SendResult)
    requires IsRank(net.parent, r) && Climbs(net, r, q)
    ensures r != 0 ==> IsRank(net.parent, net.parent[r])
    ensures var up := r != 0 && net.connected[r];
      Hop(net, At(r, q), socket)
      == if up && socket.SendOk? then At(net.parent[r], q.(routes := q.routes + [net.uuid[r]]))
         else Refused(r, q, ClimbErrno(r, q, up, socket))
  {
    if !Looks(q) {
      ChildRouteIsTheOnlyWayDown(net.parent, r, q.nodeid.rank);
    }
  }

  /** The error of a request that cannot go further up: one that looks for its service has not found it,
      any other is unreachable. */
  function ClimbErrno(r: nat, q: Request, up: bool, socket: SendResult): Errno
  {
    if up && socket.SendError? then EOTHER
    else if Looks(q) && !(q.upstream && q.nodeid == Rank(r)) then ENOSYS
    else EHOSTUNREACH
  }

  /** A request climbs as long as no broker on the way serves it and the links take it. */
  lemma {:induction false} ClimbsUp(net: Network, q: Request, w: seq<int>, fs: seq<Flight>, sockets: seq<SendResult>, n: nat)
    requires IsWalk(net.parent, w) && n < |w| && n < |fs| && IsFlight(net, fs, sockets) && fs[0] == At(w[0], q)
    requires forall i :: 0 <= i < n ==> Rises(net.parent, w, i) && Climbs(net, w[i], q)
    requires AllTake(net, w, sockets, n)
    ensures fs[n] == At(w[n], Along(net, q, w, n))
  {
    if n == 0 {
      AlongOneMore(net, q, w, 0);
    } else {
      var k := n - 1;
      assert Takes(net, w, sockets, k) && Rises(net.parent, w, k);
      ClimbsUp(net, q, w, fs, sockets, k);
      AlongOneMore(net, q, w, k);
      ClimbingHop(net, w[k], Along(net, q, w, k), sockets[k]);
      assert Hopped(net, fs, sockets, k);
    }
  }

  predicate Rises(parent: seq<int>, w: seq<int>, i: int)
    requires 0 <= i < |w| - 1 && IsRank(parent, w[i])
  {
    w[i] != 0 && w[i + 1] == parent[w[i]]
  }

  lemma ClimbRises(parent: seq<int>, a: int, n: nat)
    requires IsTree(parent) && IsRank(parent, a) && n <= Level(parent, a)
    ensures IsWalk(parent, Climb(parent, a, n))
    ensures forall i :: 0 <= i < n ==> Rises(parent, Climb(parent, a, n), i)
  {
    ClimbIsAWalk(parent, a, n);
    forall i | 0 <= i < n
      ensures Rises(parent, Climb(parent, a, n), i)
    {
      assert Level(parent, Ancestor(parent, a, i)) > 0;
    }
  }

  /** A request to any node, or flagged upstream, is served by the nearest broker that would serve it, from
      the sender up, as long as the links to it take it ... */
  lemma ServedNearest(net: Network, a: int, q: Request, fs: seq<Flight>, sockets: seq<SendResult>, n: nat)
    requires IsRank(net.parent, a) && Looks(q) && n <= Level(net.parent, a)
    requires Serves(net, Ancestor(net.parent, a, n), q)
    requires forall i: nat :: i < n ==> !Serves(net, Ancestor(net.parent, a, i), q)
    requires IsFlight(net, fs, sockets) && fs[0] == At(a, q) && |fs| > n + 1
    requires IsWalk(net.parent, Climb(net.parent, a, n)) && AllTake(net, Climb(net.parent, a, n), sockets, n)
    ensures fs[n + 1] == Served(Ancestor(net.parent, a, n), Along(net, q, Climb(net.parent, a, n), n))
  {
    ClimbRises(net.parent, a, n);
    ClimbsUp(net, q, Climb(net.parent, a, n), fs, sockets, n);
    assert Hopped(net, fs, sockets, n);
  }

  /** ... and refused where it cannot go further up; so is a request to an address that is no rank. */
  lemma RefusedWhereItStops(net: Network, a: int, q: Request, fs: seq<Flight>, sockets: seq<SendResult>, n: nat)
    requires IsRank(net.parent, a) && n <= Level(net.parent, a)
    requires forall i: nat :: i <= n ==> Climbs(net, Ancestor(net.parent, a, i), q)
    requires IsFlight(net, fs, sockets) && fs[0] == At(a, q) && |fs| > n + 1
    requires IsWalk(net.parent, Climb(net.parent, a, n)) && AllTake(net, Climb(net.parent, a, n), sockets, n)
    requires Ancestor(net.parent, a, n) == 0 || !net.connected[Ancestor(net.parent, a, n)] || !sockets[n].SendOk?
    ensures var r := Ancestor(net.parent, a, n);
      fs[n + 1] == Refused(r, Along(net, q, Climb(net.parent, a, n), n),
                           ClimbErrno(r, q, r != 0 && net.connected[r], sockets[n]))
  {
    ClimbRises(net.parent, a, n);
    var w := Climb(net.parent, a, n);
    ClimbsUp(net, q, w, fs, sockets, n);
    ClimbingHop(net, w[n], Along(net, q, w, n), sockets[n]);
    assert Hopped(net, fs, sockets, n);
  }

  /** The ranks a request has been at on its first `n` hops. */
  function Ranks(fs: seq<Flight>, n: nat): (w: seq<int>)
    requires n < |fs|
    ensures |w| == n + 1
    ensures forall i :: 0 <= i <= n ==> w[i] == fs[i].rank
  {
    if n == 0 then [fs[0].rank] else Ranks(fs, n - 1) + [fs[n].rank]
  }

  lemma HopIsALink(net: Network, r: int, q: Request, socket: SendResult)
    requires IsRank(net.parent, r) && Hop(net, At(r, q), socket).At?
    ensures var g := Hop(net, At(r, q), socket);
      Adjacent(net.parent, r, g.rank) && g.request == q.(routes := q.routes + [net.uuid[r]])
  {
    match Outcome(net, r, q, socket)
    case Above =>
    case BelowAt(c) => assert c != 0; assert ArrivesBelow(net, r, c, q.routes) == q.routes + [net.uuid[r]];
    case InService =>
    case Failed(_) =>
  }

  lemma {:induction false} StillThere(net: Network, fs: seq<Flight>, sockets: seq<SendResult>, i: nat, n: nat)
    requires IsFlight(net, fs, sockets) && i <= n < |fs| && fs[n].At?
    ensures fs[i].At?
    decreases n - i
  {
    if i < n {
      StillThere(net, fs, sockets, i + 1, n);
      assert Hopped(net, fs, sockets, i);
    }
  }

  /** Whatever a request asks for and whatever the links do, the ranks it has been at are a walk, and it
      carries the identities of those behind it. */
  lemma {:induction false} FlightIsAWalk(net: Network, q: Request, fs: seq<Flight>, sockets: seq<SendResult>, n: nat)
    requires IsFlight(net, fs, sockets) && n < |fs| && fs[0] == At(fs[0].rank, q) && fs[n].At?
    ensures IsWalk(net.parent, Ranks(fs, n)) && fs[n].request == Along(net, q, Ranks(fs, n), n)
  {
    if n == 0 {
      AlongOneMore(net, q, Ranks(fs, 0), 0);
    } else {
      var k := n - 1;
      StillThere(net, fs, sockets, k, n);
      FlightIsAWalk(net, q, fs, sockets, k);
      assert Hopped(net, fs, sockets, k);
      HopIsALink(net, fs[k].rank, fs[k].request, sockets[k]);
      var w, v := Ranks(fs, n), Ranks(fs, k);
      forall i | 0 <= i < |w| - 1
        ensures IsLink(net.parent, w, i)
      {
        assert i < k ==> IsLink(net.parent, v, i);
      }
      SameBehind(net, w, v, k);
      AlongOneMore(net, q, w, k);
    }
  }

  lemma {:induction false} SameBehind(net: Network, w: seq<int>, v: seq<int>, n: nat)
    requires n <= |w| && n <= |v| && forall i :: 0 <= i < n ==> w[i] == v[i]
    requires forall i :: 0 <= i < |w| ==> 0 <= w[i] < |net.uuid|
    requires forall i :: 0 <= i < |v| ==> 0 <= v[i] < |net.uuid|
    ensures Behind(net, w, n) == Behind(net, v, n)
  {
    if n > 0 {
      SameBehind(net, w, v, n - 1);
    }
  }

  /* ---- responses ---- */

  datatype Return = On(rank: int, routes: seq<Uuid>)      // at a broker, still to be routed
                  | ToBroker(rank: int)                   // for a service of the broker itself
                  | ToClient(rank: int, routes: seq<Uuid>)
                  | Dropped(rank: int)

  /** The online child of `r` with this identity among the ranks below `n`, or -1. */
  function ChildNamed(net: Network, r: int, id: Uuid, n: nat): (c: int)
    requires n <= |net.parent|
    ensures -1 <= c < n
    ensures c >= 0 ==> c > 0 && net.parent[c] == r && net.online[c] && net.uuid[c] == id
    ensures c < 0 ==> forall k :: 0 < k < n && net.parent[k] == r && net.online[k] ==> net.uuid[k] != id
  {
    if n == 0 then -1
    else if n - 1 > 0 && net.parent[n - 1] == r && net.online[n - 1] && net.uuid[n - 1] == id then n - 1
    else ChildNamed(net, r, id, n - 1)
  }

  /** What a broker does with a response: the last route says who is next.  Going up, the parent's
      socket pushes the sender's identity and the parent deletes that and its own; going down, the
      socket takes off the child's. */
  function Back(net: Network, f: Return): (g: Return)
    requires IsRank(net.parent, f.rank)
    ensures IsRank(net.parent, g.rank)
  {
    if !f.On? then f
    else if f.routes == [] then ToBroker(f.rank)
    else if f.rank != 0 && Last(f.routes) == net.uuid[net.parent[f.rank]] then BackUp(net, f.rank, f.routes)
    else
      var c := ChildNamed(net, f.rank, Last(f.routes), |net.parent|);
      if c >= 0 then On(c, DeleteLast(f.routes))
      else if Last(f.routes) in net.clients[f.rank] then ToClient(f.rank, f.routes)
      else Dropped(f.rank)
  }

  function Last(routes: seq<Uuid>): Uuid
    requires routes != []
  {
    routes[|routes| - 1]
  }

  function BackUp(net: Network, r: int, routes: seq<Uuid>): (g: Return)
    requires IsRank(net.parent, r) && r != 0
    ensures IsRank(net.parent, g.rank)
  {
    if net.connected[r] then On(net.parent[r], DeleteLast(DeleteLast(Push(routes, net.uuid[r])))) else Dropped(r)
  }

  predicate Backed(net: Network, rs: seq<Return>, i: int)
    requires 0 <= i < |rs| - 1 && IsRank(net.parent, rs[i].rank)
  {
    rs[i + 1] == Back(net, rs[i])
  }

  /** The way of a response, hop by hop. */
  ghost predicate IsReturn(net: Network, rs: seq<Return>)
  {
    && |rs| > 0
    && (forall i :: 0 <= i < |rs| ==> IsRank(net.parent, rs[i].rank))
    && (forall i :: 0 <= i < |rs| - 1 ==> Backed(net, rs, i))
  }

  /** Every response has a way of any length. */
  lemma {:induction false} ReturnGoesOn(net: Network, r: Return, n: nat) returns (rs: seq<Return>)
    requires IsRank(net.parent, r.rank)
    ensures IsReturn(net, rs) && |rs| == n + 1 && rs[0] == r
  {
    if n == 0 {
      rs := [r];
    } else {
      var before := ReturnGoesOn(net, r, n - 1);
      rs := before + [Back(net, before[n - 1])];
      forall i | 0 <= i < |rs| - 1
        ensures Backed(net, rs, i)
      {
        assert i < n - 1 ==> Backed(net, before, i);
      }
    }
  }

  lemma BackToParent(net: Network, r: int, routes: seq<Uuid>)
    requires 0 < r < |net.parent| && net.connected[r]
    ensures Back(net, On(r, routes + [net.uuid[net.parent[r]]])) == On(net.parent[r], routes)
  {
    var all := routes + [net.uuid[net.parent[r]]];
    assert DeleteLast(all) == routes;
    assert DeleteLast(Push(all, net.uuid[r])) == all;
  }

  lemma BackToChild(net: Network, c: int, routes: seq<Uuid>)
    requires 0 < c < |net.parent| && net.online[c]
    ensures Back(net, On(net.parent[c], routes + [net.uuid[c]])) == On(c, routes)
  {
    var r, all := net.parent[c], routes + [net.uuid[c]];
    assert DeleteLast(all) == routes && Last(all) == net.uuid[c];
    if r != 0 {
      LinkIsOneWay(net.parent, c);
      assert net.uuid[c] != net.uuid[net.parent[r]];
    }
    var k := ChildNamed(net, r, net.uuid[c], |net.parent|);
    assert k == c;
  }

  /** A response whose last route names a neighbour goes there, and loses that route; if that link is down,
      it is dropped. */
  lemma BackToNeighbour(net: Network, r: int, a: int, routes: seq<Uuid>)
    requires IsRank(net.parent, r) && IsRank(net.parent, a) && Adjacent(net.parent, r, a)
    ensures Back(net, On(r, routes + [net.uuid[a]])) == if Up(net, r, a) then On(a, routes) else Dropped(r)
  {
    if net.parent[r] == a {
      if net.connected[r] {
        BackToParent(net, r, routes);
      }
    } else if net.online[a] {
      BackToChild(net, a, routes);
    } else {
      ChildIsNotNamed(net, a);
    }
  }

  lemma ChildIsNotNamed(net: Network, c: int)
    requires 0 < c < |net.parent| && !net.online[c]
    ensures ChildNamed(net, net.parent[c], net.uuid[c], |net.parent|) < 0
    ensures net.parent[c] != 0 ==> net.uuid[net.parent[net.parent[c]]] != net.uuid[c]
  {
    if net.parent[c] != 0 {
      LinkIsOneWay(net.parent, c);
    }
  }

  /** The response to a request that went along the walk `w`, when it is at the k-th rank again. */
  function Returning(net: Network, w: seq<int>, routes: seq<Uuid>, k: nat): Return
    requires k < |w| && forall i :: 0 <= i < |w| ==> 0 <= w[i] < |net.uuid|
  {
    On(w[k], routes + Behind(net, w, k))
  }

  /** The k-th link of a walk is up for the way back. */
  predicate UpBack(net: Network, w: seq<int>, k: int)
    requires 0 <= k < |w| - 1 && IsRank(net.parent, w[k]) && IsRank(net.parent, w[k + 1])
  {
    Up(net, w[k + 1], w[k])
  }

  lemma OneStepBack(net: Network, w: seq<int>, routes: seq<Uuid>, k: nat)
    requires IsWalk(net.parent, w) && k + 1 < |w|
    ensures Back(net, Returning(net, w, routes, k + 1))
         == if UpBack(net, w, k) then Returning(net, w, routes, k) else Dropped(w[k + 1])
  {
    assert IsLink(net.parent, w, k);
    var before := routes + Behind(net, w, k);
    assert routes + Behind(net, w, k + 1) == before + [net.uuid[w[k]]];
    BackToNeighbour(net, w[k + 1], w[k], before);
  }

  /** Back along a walk, as long as its links are up that way, a response retraces the request hop for hop ... */
  lemma {:induction false} ResponseRetraces(net: Network, w: seq<int>, routes: seq<Uuid>, rs: seq<Return>, n: nat)
    requires IsWalk(net.parent, w) && n < |w|
    requires IsReturn(net, rs) && rs[0] == Returning(net, w, routes, |w| - 1) && n < |rs|
    requires forall k :: |w| - 1 - n <= k < |w| - 1 ==> UpBack(net, w, k)
    ensures rs[n] == Returning(net, w, routes, |w| - 1 - n)
  {
    if n > 0 {
      ResponseRetraces(net, w, routes, rs, n - 1);
      OneStepBack(net, w, routes, |w| - 1 - n);
      assert Backed(net, rs, n - 1);
    }
  }

  /** ... and at the first that is not, it is dropped. */
  lemma ResponseStops(net: Network, w: seq<int>, routes: seq<Uuid>, rs: seq<Return>, n: nat)
    requires IsWalk(net.parent, w) && n + 1 < |w|
    requires IsReturn(net, rs) && rs[0] == Returning(net, w, routes, |w| - 1) && n + 1 < |rs|
    requires forall k :: |w| - 1 - n <= k < |w| - 1 ==> UpBack(net, w, k)
    requires !UpBack(net, w, |w| - 2 - n)
    ensures rs[n + 1] == Dropped(w[|w| - 1 - n])
  {
    ResponseRetraces(net, w, routes, rs, n);
    OneStepBack(net, w, routes, |w| - 2 - n);
    assert Backed(net, rs, n);
  }

  /** The routes a request starts with: none if the broker itself sends it, else the sending client's
      identity last. */
  ghost predicate FromHere(net: Network, r: int, routes: seq<Uuid>)
    requires IsRank(net.parent, r)
  {
    routes == [] || routes[|routes| - 1] in net.clients[r]
  }

  /** The response, handed to whoever sent the request from broker `r`. */
  function Home(r: int, routes: seq<Uuid>): Return
  {
    if routes == [] then ToBroker(r) else ToClient(r, routes)
  }

  lemma DeliveredHome(net: Network, r: int, routes: seq<Uuid>)
    requires IsRank(net.parent, r) && FromHere(net, r, routes)
    ensures Back(net, On(r, routes)) == Home(r, routes)
  {
  }

  ghost predicate AllUpBack(net: Network, w: seq<int>)
    requires IsWalk(net.parent, w)
  {
    forall k :: 0 <= k < |w| - 1 ==> UpBack(net, w, k)
  }

  /** Whatever way a request went, over links that are up the other way its response retraces that way hop
      for hop and reaches the sender with the routes the request started with. */
  lemma RoundTrip(net: Network, w: seq<int>, routes: seq<Uuid>, rs: seq<Return>)
    requires IsWalk(net.parent, w) && AllUpBack(net, w) && FromHere(net, w[0], routes)
    requires IsReturn(net, rs) && rs[0] == Returning(net, w, routes, |w| - 1) && |rs| > |w|
    ensures rs[|w|] == Home(w[0], routes)
  {
    var n := |w| - 1;
    ResponseRetraces(net, w, routes, rs, n);
    assert routes + Behind(net, w, 0) == routes;
    assert Backed(net, rs, n);
    DeliveredHome(net, w[0], routes);
  }

  /** A response to any request, sent from wherever the request has come, leads home with the routes that
      the request carries there. */
  lemma EveryFlightReturns(net: Network, q: Request, fs: seq<Flight>, sockets: seq<SendResult>, n: nat, rs: seq<Return>)
    requires IsFlight(net, fs, sockets) && n < |fs| && fs[0] == At(fs[0].rank, q) && fs[n].At?
    requires FromHere(net, fs[0].rank, q.routes)
    requires IsWalk(net.parent, Ranks(fs, n)) && AllUpBack(net, Ranks(fs, n))
    requires IsReturn(net, rs) && rs[0] == On(fs[n].rank, fs[n].request.routes) && |rs| > n + 1
    ensures rs[n + 1] == Home(fs[0].rank, q.routes)
  {
    FlightIsAWalk(net, q, fs, sockets, n);
    RoundTrip(net, Ranks(fs, n), q.routes, rs);
  }

  /* ---- responses made up by a broker ---- */

  /** The routes of the response a broker makes up when the child a request was sent to goes away: the
      tracked request still has the two routes pushed for the child. */
  function MadeUpForChild(net: Network, r: int, c: int, routes: seq<Uuid>): seq<Uuid>
    requires IsRank(net.parent, r) && IsRank(net.parent, c)
  {
    DeleteLast(DeleteLast(PreparedDown(net, r, c, routes)))
  }

  /** A made-up response is routed on from the same broker with the same routes as the real one: the
      one the child would have sent ... */
  lemma MadeUpEqualsReal(net: Network, r: int, c: int, routes: seq<Uuid>)
    requires IsRank(net.parent, r) && 0 < c < |net.parent| && net.parent[c] == r && net.connected[c]
    ensures Back(net, On(c, ArrivesBelow(net, r, c, routes))) == On(r, MadeUpForChild(net, r, c, routes))
    ensures MadeUpForChild(net, r, c, routes) == routes
  {
    assert ArrivesBelow(net, r, c, routes) == routes + [net.uuid[r]];
    BackToParent(net, c, routes);
  }

  /** ... or the parent would have sent, for a request tracked with the routes it had here. */
  lemma MadeUpForParentEqualsReal(net: Network, r: int, routes: seq<Uuid>)
    requires 0 < r < |net.parent| && net.online[r]
    ensures Back(net, On(net.parent[r], ArrivesAbove(net, r, routes))) == On(r, routes)
  {
    BackToChild(net, r, routes);
  }

  /* ---- the message as an object ---- */

  class Message {
    const nodeid: NodeId
    const upstream: bool
    const service: string
    var routes: seq<Uuid>

    constructor (q: Request)
      ensures nodeid == q.nodeid && upstream == q.upstream && service == q.service && routes == q.routes
    {
      nodeid, upstream, service, routes := q.nodeid, q.upstream, q.service, q.routes;
    }

    ghost function Value(): Request
      reads this
    {
      Request(nodeid, upstream, service, routes)
    }

    method RoutePush(id: Uuid)
      modifies this
      ensures routes == Push(old(routes), id)
    {
      routes := routes + [id];
    }
  }

  /** Sends up, when the sockets allow. */
  method SendUpstream(net: Network, r: int, result: SendResult) returns (s: Sent)
    requires IsRank(net.parent, r)
    ensures r == 0 || !net.connected[r] ==> s == Failed(EHOSTUNREACH)
    ensures r != 0 && net.connected[r] ==> s == if result.SendOk? then Above else Failed(SocketError(result))
  {
    if r == 0 || !net.connected[r] {
      return Failed(EHOSTUNREACH);
    }
    if result != Overlay.SendOk {
      return Failed(SocketError(result));
    }
    return Above;
  }

  /** Routes a request.  A failure of the send downstream leaves the message with the two routes
      already pushed. */
  method SendRequest(net: Network, r: int, msg: Message, result: SendResult) returns (s: Sent)
    requires IsRank(net.parent, r)
    modifies msg
    ensures s == Outcome(net, r, old(msg.Value()), result)
    ensures msg.routes == RoutesOnError(net, r, old(msg.Value()))
  {
    if msg.upstream && msg.nodeid == Rank(r) {
      s := SendUpstream(net, r, result);
      return;
    } else if msg.upstream || msg.nodeid.Any? {
      if msg.service in net.services[r] {
        return InService;
      }
      s := SendUpstream(net, r, result);
      if s == Failed(EHOSTUNREACH) {
        s := Failed(ENOSYS);
      }
      return;
    } else if msg.nodeid.rank == r {
      return if msg.service in net.services[r] then InService else Failed(ENOSYS);
    }
    var c := ChildRoute(net.parent, r, msg.nodeid.rank);
    ChildRouteIsTheOnlyWayDown(net.parent, r, msg.nodeid.rank);
    if c < 0 {
      s := SendUpstream(net, r, result);
      return;
    }
    if !net.online[c] {
      return Failed(EHOSTUNREACH);
    }
    msg.RoutePush(net.uuid[r]);
    msg.RoutePush(net.uuid[c]);
    return if result == Overlay.SendOk then BelowAt(c) else Failed(SocketError(result));
  }

  /* ---- a request that fails ---- */

  /** The routes on a request that could not be sent, which its error response will carry. */
  function RoutesOnError(net: Network, r: int, q: Request): seq<Uuid>
    requires IsRank(net.parent, r)
  {
    var d := Decide(net, r, q);
    if d.SendDown? then PreparedDown(net, r, d.child, q.routes) else q.routes
  }

  /** The network after a failed send: a child that turned out to be unreachable is no longer online. */
  function AfterFailure(net: Network, r: int, q: Request, result: SendResult): (net1: Network)
    requires IsRank(net.parent, r)
    ensures net1.parent == net.parent
  {
    var d := Decide(net, r, q);
    if d.SendDown? && result.PeerGone? then net.(online := net.online[d.child := false]) else net
  }

  /** The error response to a request that failed at `r`.  A request of the broker itself, which has no
      routes, is thrown away without one. */
  function ErrorAt(net: Network, r: int, q: Request): Return
    requires IsRank(net.parent, r)
  {
    if q.routes == [] then Dropped(r) else On(r, RoutesOnError(net, r, q))
  }

  /** Some way of the response that starts as `r` ends at `home`. */
  ghost predicate Reaches(net: Network, r: Return, home: Return)
  {
    exists rs :: Leads(net, rs, r, home)
  }

  ghost predicate Leads(net: Network, rs: seq<Return>, r: Return, home: Return)
  {
    IsReturn(net, rs) && rs[0] == r && rs[|rs| - 1] == home
  }

  /** The error response gets to `home`. */
  ghost predicate ErrorReaches(net: Network, r: int, q: Request, result: SendResult, home: Return)
    requires IsRank(net.parent, r)
  {
    Reaches(AfterFailure(net, r, q, result), ErrorAt(net, r, q), home)
  }

  /** Going back one hop first makes no difference to where a response that is still on its way gets. */
  lemma ReachesFromNext(net: Network, r: Return, home: Return)
    requires IsRank(net.parent, r.rank) && r.On? && !home.On?
    ensures Reaches(net, r, home) <==> Reaches(net, Back(net, r), home)
  {
    if Reaches(net, r, home) {
      var rs :| Leads(net, rs, r, home);
      var rest := rs[1..];
      assert Backed(net, rs, 0);
      forall i | 0 <= i < |rest| - 1
        ensures Backed(net, rest, i)
      {
        assert Backed(net, rs, i + 1);
      }
      assert Leads(net, rest, Back(net, r), home);
    }
    if Reaches(net, Back(net, r), home) {
      var rest :| Leads(net, rest, Back(net, r), home);
      var rs := [r] + rest;
      forall i | 0 <= i < |rs| - 1
        ensures Backed(net, rs, i)
      {
        assert i > 0 ==> Backed(net, rest, i - 1);
      }
      assert Leads(net, rs, r, home);
    }
  }

  lemma {:induction false} EndedStays(net: Network, rs: seq<Return>, i: nat, j: nat)
    requires IsReturn(net, rs) && i <= j < |rs| && !rs[i].On?
    ensures rs[j] == rs[i]
    decreases j - i
  {
    if i < j {
      EndedStays(net, rs, i, j - 1);
      assert Backed(net, rs, j - 1);
    }
  }

  lemma ReachesFromEnd(net: Network, r: Return, home: Return)
    requires IsRank(net.parent, r.rank) && !r.On?
    ensures Reaches(net, r, home) <==> r == home
  {
    if Reaches(net, r, home) {
      var rs :| Leads(net, rs, r, home);
      EndedStays(net, rs, 0, |rs| - 1);
    }
    if r == home {
      assert Leads(net, [r], r, home);
    }
  }

  /** A request that finds an online child unreachable is never answered: the routes pushed for the child
      are still on the error response, and the child they name is no longer online. */
  lemma FailedSendDownIsDropped(net: Network, r: int, q: Request)
    requires IsRank(net.parent, r) && Decide(net, r, q).SendDown?
    ensures Back(AfterFailure(net, r, q, Overlay.PeerGone), On(r, RoutesOnError(net, r, q))) == Dropped(r)
  {
    var c := Decide(net, r, q).child;
    var net1 := AfterFailure(net, r, q, Overlay.PeerGone);
    var routes := RoutesOnError(net, r, q);
    assert routes == q.routes + [net.uuid[r]] + [net.uuid[c]] && Last(routes) == net.uuid[c];
    assert c != 0 && !net1.online[c];
    if r != 0 {
      LinkIsOneWay(net.parent, c);
      assert net.uuid[c] != net.uuid[net.parent[r]];
    }
    assert ChildNamed(net1, r, net.uuid[c], |net.parent|) < 0;
  }

  /** When the socket gives any other error the child is still online, so the error response goes down to
      it, and comes back up if the child can send. */
  lemma OtherErrorBounces(net: Network, r: int, q: Request)
    requires IsRank(net.parent, r) && Decide(net, r, q).SendDown?
    ensures var c := Decide(net, r, q).child;
      && Back(net, On(r, RoutesOnError(net, r, q))) == On(c, q.routes + [net.uuid[r]])
      && Back(net, On(c, q.routes + [net.uuid[r]])) == if net.connected[c] then On(r, q.routes) else Dropped(c)
  {
    var c := Decide(net, r, q).child;
    var down := q.routes + [net.uuid[r]];
    assert c != 0 && net.online[c];
    assert RoutesOnError(net, r, q) == down + [net.uuid[c]];
    BackToChild(net, c, down);
    if net.connected[c] {
      BackToParent(net, c, q.routes);
    }
  }

  /** Whether an error response gets on its way back over the links its request came by. */
  predicate ErrorReturns(net: Network, r: int, q: Request, result: SendResult)
    requires IsRank(net.parent, r)
  {
    var d := Decide(net, r, q);
    q.routes != [] && (d.SendDown? ==> !result.PeerGone? && net.connected[d.child])
  }

  /** If it does, it fares like a response from here with the request's routes; otherwise it is lost. */
  lemma ErrorFares(net: Network, r: int, q: Request, result: SendResult, home: Return)
    requires IsRank(net.parent, r) && (home.ToBroker? || home.ToClient?)
    ensures ErrorReaches(net, r, q, result, home) <==> ErrorReturns(net, r, q, result) && Reaches(net, On(r, q.routes), home)
  {
    var f := ErrorAt(net, r, q);
    var d := Decide(net, r, q);
    if q.routes == [] {
      ReachesFromEnd(AfterFailure(net, r, q, result), f, home);
    } else if d.SendDown? && result.PeerGone? {
      FailedSendDownIsDropped(net, r, q);
      ReachesFromNext(AfterFailure(net, r, q, result), f, home);
      ReachesFromEnd(AfterFailure(net, r, q, result), Dropped(r), home);
    } else if d.SendDown? {
      OtherErrorBounces(net, r, q);
      ReachesFromNext(net, f, home);
      ReachesFromNext(net, Back(net, f), home);
      if !net.connected[d.child] {
        ReachesFromEnd(net, Dropped(d.child), home);
      }
    }
  }

  /** When a request fails at the broker it was sent from, whatever the state of the links, the error
      response reaches the sender exactly if the sender is not the broker itself, and the failure was not
      in a send to an online child that turned out to be unreachable, or that cannot itself send. */
  lemma ErrorReachesSenderIff(net: Network, r: int, q: Request, result: SendResult)
    requires IsRank(net.parent, r) && FromHere(net, r, q.routes)
    requires Outcome(net, r, q, result).Failed?
    ensures ErrorReaches(net, r, q, result, Home(r, q.routes)) <==> ErrorReturns(net, r, q, result)
  {
    var home := Home(r, q.routes);
    ErrorFares(net, r, q, result, home);
    DeliveredHome(net, r, q.routes);
    ReachesFromNext(net, On(r, q.routes), home);
    ReachesFromEnd(net, home, home);
  }

  lemma {:induction false} FirstDown(net: Network, w: seq<int>, n: nat) returns (m: nat)
    requires IsWalk(net.parent, w) && !AllUpBack(net, w) && n < |w|
    requires forall k :: |w| - 1 - n <= k < |w| - 1 ==> UpBack(net, w, k)
    ensures n <= m < |w| - 1 && !UpBack(net, w, |w| - 2 - m)
    ensures forall k :: |w| - 1 - m <= k < |w| - 1 ==> UpBack(net, w, k)
    decreases |w| - n
  {
    if n + 1 < |w| && UpBack(net, w, |w| - 2 - n) {
      m := FirstDown(net, w, n + 1);
    } else {
      m := n;
    }
  }

  /** A response with the routes gathered on a walk gets from its end to the sender exactly if the links of
      the walk are up for the way back. */
  lemma HomeIsReachedIff(net: Network, w: seq<int>, routes: seq<Uuid>)
    requires IsWalk(net.parent, w) && FromHere(net, w[0], routes)
    ensures Reaches(net, On(w[|w| - 1], routes + Behind(net, w, |w| - 1)), Home(w[0], routes)) <==> AllUpBack(net, w)
  {
    var r, home := Returning(net, w, routes, |w| - 1), Home(w[0], routes);
    if AllUpBack(net, w) {
      var rs := ReturnGoesOn(net, r, |w|);
      RoundTrip(net, w, routes, rs);
      assert Leads(net, rs, r, home);
    } else {
      var m := FirstDown(net, w, 0);
      if rs :| Leads(net, rs, r, home) {
        NotDroppedAndHome(net, w, routes, rs, m);
      }
    }
  }

  /** A response that is dropped after `m` hops is home neither before nor after. */
  lemma NotDroppedAndHome(net: Network, w: seq<int>, routes: seq<Uuid>, rs: seq<Return>, m: nat)
    requires IsWalk(net.parent, w) && m < |w| - 1 && !UpBack(net, w, |w| - 2 - m)
    requires forall k :: |w| - 1 - m <= k < |w| - 1 ==> UpBack(net, w, k)
    requires IsReturn(net, rs) && rs[0] == Returning(net, w, routes, |w| - 1)
    ensures rs[|rs| - 1] != Home(w[0], routes)
  {
    var last := |rs| - 1;
    if last <= m {
      ResponseRetraces(net, w, routes, rs, last);
    } else {
      ResponseStops(net, w, routes, rs, m);
      EndedStays(net, rs, m + 1, last);
    }
  }

  /** When a request that has come along a walk `w` fails at the end of it, in any state of the links, the
      error response reaches the sender exactly if the links of the walk are up for the way back, the request
      has left the broker it is from or is not from the broker itself, and it did not fail in a send to an
      online child that is unreachable or cannot itself send. */
  lemma ErrorRetracesIff(net: Network, w: seq<int>, q: Request, routes: seq<Uuid>, result: SendResult)
    requires IsWalk(net.parent, w) && FromHere(net, w[0], routes)
    requires q == Along(net, q.(routes := routes), w, |w| - 1)
    requires Outcome(net, w[|w| - 1], q, result).Failed?
    ensures ErrorReaches(net, w[|w| - 1], q, result, Home(w[0], routes))
       <==> AllUpBack(net, w) && ErrorReturns(net, w[|w| - 1], q, result)
    ensures q.routes != [] <==> |w| > 1 || routes != []
  {
    ErrorFares(net, w[|w| - 1], q, result, Home(w[0], routes));
    HomeIsReachedIff(net, w, routes);
  }

  /** Rank 0 and a child that offers nothing, with a client each time. */
  function TwoBrokers(): Network
  {
    assert Levels([-1, 0], [0, 1]);
    Net([-1, 0], ["a", "b"], [{}, {}], [{"c"}, {}], [true, true], [true, true])
  }

  /** A client's request finds the child gone, and the client never hears of it. */
  lemma AnAnswerIsLost()
    ensures var q := Request(Rank(1), false, "s", ["c"]);
      && FromHere(TwoBrokers(), 0, q.routes) && Decide(TwoBrokers(), 0, q) == SendDown(1)
      && Back(AfterFailure(TwoBrokers(), 0, q, Overlay.PeerGone), On(0, RoutesOnError(TwoBrokers(), 0, q))) == Dropped(0)
      && !ErrorReaches(TwoBrokers(), 0, q, Overlay.PeerGone, Home(0, q.routes))
  {
    var net, q := TwoBrokers(), Request(Rank(1), false, "s", ["c"]);
    ChildRouteIsTheOnlyWayDown(net.parent, 0, 1);
    assert Below(net.parent, 1, 0);
    FailedSendDownIsDropped(net, 0, q);
    ErrorReachesSenderIff(net, 0, q, Overlay.PeerGone);
  }

  /** A request of the broker itself for a service that nobody offers fails, and it never hears of it. */
  lemma TheBrokersOwnIsLost()
    ensures var q := Request(Any, false, "s", []);
      && FromHere(TwoBrokers(), 0, q.routes) && Outcome(TwoBrokers(), 0, q, Overlay.SendOk) == Failed(ENOSYS)
      && !ErrorReaches(TwoBrokers(), 0, q, Overlay.SendOk, Home(0, q.routes))
  {
    var q := Request(Any, false, "s", []);
    ErrorReachesSenderIff(TwoBrokers(), 0, q, Overlay.SendOk);
  }
}
