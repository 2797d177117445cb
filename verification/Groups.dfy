/** Named groups of broker ranks: updates are queued, reduced, applied locally and sent upstream. */
module Groups {
  import opened Wrappers

  /** A join or leave of some ranks, or an entry that cannot be decoded. */
  datatype Update = Update(ranks: set<int>, join: bool) | Malformed

  /* ---- meaning of a list of updates ---- */

  function ApplyOne(members: set<int>, u: Update): set<int>
  {
    if u.Malformed? then members else if u.join then members + u.ranks else members - u.ranks
  }

  function ApplyAll(members: set<int>, us: seq<Update>): set<int>
  {
    if us == [] then members else ApplyOne(ApplyAll(members, us[..|us| - 1]), us[|us| - 1])
  }

  /** Whether `x` is a member after `us`, if it was one before exactly when `was`. */
  function Effect(us: seq<Update>, x: int, was: bool): bool
  {
    if us == [] then was else
      var u := us[|us| - 1];
      if u.Update? && x in u.ranks then u.join else Effect(us[..|us| - 1], x, was)
  }

  lemma {:induction false} ApplyAllIsEffect(members: set<int>, us: seq<Update>, x: int)
    ensures x in ApplyAll(members, us) <==> Effect(us, x, x in members)
  {
    if us != [] {
      ApplyAllIsEffect(members, us[..|us| - 1], x);
    }
  }

  lemma {:induction false} EffectAppend(a: seq<Update>, b: seq<Update>, x: int, was: bool)
    ensures Effect(a + b, x, was) == Effect(b, x, Effect(a, x, was))
    decreases |b|
  {
    if b == [] {
      assert a + b == a;
    } else {
      assert (a + b)[..|a + b| - 1] == a + b[..|b| - 1];
      EffectAppend(a, b[..|b| - 1], x, was);
    }
  }

  ghost predicate Touches(us: seq<Update>, x: int)
  {
    exists i :: 0 <= i < |us| && us[i].Update? && x in us[i].ranks
  }

  lemma {:induction false} UntouchedKeeps(us: seq<Update>, x: int, was: bool)
    requires !Touches(us, x)
    ensures Effect(us, x, was) == was
  {
    if us != [] {
      UntouchedKeeps(us[..|us| - 1], x, was);
    }
  }

  /* ---- reduction ---- */

  /** Two or more decodable updates, all joins or all leaves. */
  predicate Mergeable(us: seq<Update>)
  {
    |us| >= 2 && us[0].Update? && forall i :: 0 <= i < |us| ==> us[i].Update? && us[i].join == us[0].join
  }

  function AllRanks(us: seq<Update>): set<int>
  {
    if us == [] then {}
    else AllRanks(us[..|us| - 1]) + (if us[|us| - 1].Update? then us[|us| - 1].ranks else {})
  }

  function Reduced(us: seq<Update>): seq<Update>
  {
    if Mergeable(us) then [Update(AllRanks(us), us[0].join)] else us
  }

  /** Updates of one kind change exactly the ranks they name. */
  lemma {:induction false} LikeUpdatesMerge(us: seq<Update>, join: bool, x: int, was: bool)
    requires forall i :: 0 <= i < |us| ==> us[i].Update? && us[i].join == join
    ensures Effect(us, x, was) == if x in AllRanks(us) then join else was
  {
    if us != [] {
      LikeUpdatesMerge(us[..|us| - 1], join, x, was);
    }
  }

  lemma ReducedHasSameEffect(us: seq<Update>, x: int, was: bool)
    ensures Effect(Reduced(us), x, was) == Effect(us, x, was)
  {
    if Mergeable(us) {
      LikeUpdatesMerge(us, us[0].join, x, was);
      assert Reduced(us)[..0] == [];
    }
  }

  ghost predicate AllLike(us: seq<Update>, join: bool)
  {
    forall i :: 0 <= i < |us| ==> us[i].Update? && us[i].join == join
  }

  /** Two or more updates of one kind become one; any other list stays as it is. */
  lemma ReducedIsShort(us: seq<Update>)
    ensures |us| >= 2 && (AllLike(us, true) || AllLike(us, false)) ==> |Reduced(us)| == 1
    ensures |us| < 2 || !(AllLike(us, true) || AllLike(us, false)) ==> Reduced(us) == us
  {
    if Mergeable(us) {
      assert AllLike(us, us[0].join);
    }
  }

  /** For every member set and every list, applying the reduced list gives the same members. */
  lemma ReductionPreservesMeaning(members: set<int>, us: seq<Update>)
    ensures ApplyAll(members, Reduced(us)) == ApplyAll(members, us)
  {
    forall x: int
      ensures x in ApplyAll(members, Reduced(us)) <==> x in ApplyAll(members, us)
    {
      ApplyAllIsEffect(members, us, x);
      ApplyAllIsEffect(members, Reduced(us), x);
      ReducedHasSameEffect(us, x, x in members);
    }
  }

  /** Tries to merge a list into one update.  It succeeds exactly on like updates, and then the one
      update does to every member set what the list does. */
  method BatchReduceOne(a: seq<Update>) returns (merged: Option<Update>)
    ensures merged.Some? <==> Mergeable(a)
    ensures merged.Some? ==> [merged.value] == Reduced(a)
    ensures merged.Some? ==> forall members :: ApplyOne(members, merged.value) == ApplyAll(members, a)
  {
    if |a| < 2 {
      return None;
    }
    var ids: set<int>, join := {}, false;
    for index := 0 to |a|
      invariant forall i :: 0 <= i < index ==> a[i].Update? && a[i].join == join
      invariant ids == AllRanks(a[..index])
    {
      if a[index].Malformed? {
        return None;
      }
      assert a[..index + 1][..index] == a[..index];
      if index == 0 {
        ids, join := a[index].ranks, a[index].join;
        continue;
      }
      if a[index].join != join {
        return None;
      }
      ids := ids + a[index].ranks;
    }
    assert a[..|a|] == a;
    merged := Some(Update(ids, join));
    forall members: set<int>
      ensures ApplyOne(members, merged.value) == ApplyAll(members, a)
    {
      ReductionPreservesMeaning(members, a);
      assert ApplyAll(members, [merged.value][..0]) == members;
    }
  }

  /* ---- the service on one broker ---- */

  type Batch = map<string, seq<Update>>

  function Queued(b: Batch, name: string): seq<Update>
  {
    if name in b then b[name] else []
  }

  function Members(g: map<string, set<int>>, name: string): set<int>
  {
    if name in g then g[name] else {}
  }

  datatype Outcome = Accepted | Rejected(errno: Errno)
  datatype Errno = EPROTO | EEXIST | ENOENT

  class Service {
    const rank: nat
    var members: map<string, set<int>>
    var joinedBy: map<string, nat>      // the client whose join request is cached
    var batch: Batch
    var sentUp: seq<Batch>              // updates sent to the parent
    var watchers: map<string, seq<nat>>
    var told: seq<Told>                 // membership replies to watchers, in order

    /** A group that has been joined is known. */
    ghost predicate Valid()
      reads this
    {
      joinedBy.Keys <= members.Keys
    }

    constructor (r: nat)
      ensures Valid()
      ensures rank == r && members == map[] && joinedBy == map[] && batch == map[]
      ensures sentUp == [] && watchers == map[] && told == []
    {
      rank := r;
      members, joinedBy, batch, sentUp, watchers, told := map[], map[], map[], [], map[], [];
    }

    method BatchAppend(name: string, us: seq<Update>)
      modifies this`batch
      ensures Queued(batch, name) == old(Queued(batch, name)) + us && name in batch
      ensures forall n :: n != name ==> Queued(batch, n) == old(Queued(batch, n))
      ensures batch.Keys == old(batch.Keys) + {name}
    {
      if name !in batch {
        batch := batch[name := []];
      }
      batch := batch[name := batch[name] + us];
    }

    method BatchReduce()
      modifies this`batch
      ensures batch.Keys == old(batch.Keys)
      ensures forall n :: n in batch ==> batch[n] == Reduced(old(batch)[n])
    {
      var todo := batch.Keys;
      while todo != {}
        invariant todo <= batch.Keys == old(batch.Keys)
        invariant forall n :: n in batch ==> batch[n] == if n in todo then old(batch)[n] else Reduced(old(batch)[n])
        decreases todo
      {
        var name :| name in todo;
        var merged := BatchReduceOne(batch[name]);
        if merged.Some? {
          batch := batch[name := [merged.value]];
        }
        todo := todo - {name};
      }
    }

    /** Answers every watcher of the group with its membership. */
    method RespondAll(name: string)
      modifies this`told
      ensures told == old(told) + Replies(name, Watching(watchers, name), Members(members, name))
    {
      var ws := if name in watchers then watchers[name] else [];
      for i := 0 to |ws|
        invariant told == old(told) + Replies(name, ws[..i], Members(members, name))
      {
        assert ws[..i + 1][..i] == ws[..i];
        told := told + [Told(ws[i], name, Members(members, name))];
      }
      assert ws[..|ws|] == ws;
    }

    /** Applies one group's updates, creating the group if it is unknown. */
    method ApplyToGroup(name: string, a: seq<Update>)
      modifies this`members
      ensures members == old(members)[name := ApplyAll(old(Members(members, name)), a)]
    {
      var ms := if name in members then members[name] else {};
      for index := 0 to |a|
        invariant ms == ApplyAll(Members(members, name), a[..index])
      {
        assert a[..index + 1][..index] == a[..index];
        var u := a[index];
        if u.Update? {
          ms := if u.join then ms + u.ranks else ms - u.ranks;
        }
      }
      assert a[..|a|] == a;
      members := members[name := ms];
    }

    /** Applies every group's updates, and tells its watchers.  Groups are taken in some order. */
    method BatchApply() returns (ghost order: seq<string>)
      modifies this`members, this`batch, this`told
      ensures batch == map[]
      ensures forall n :: Members(members, n) == ApplyAll(old(Members(members, n)), old(Queued(batch, n)))
      ensures members.Keys == old(members.Keys + batch.Keys)
      ensures EachOnce(order, old(batch.Keys))
      ensures told == old(told) + Announced(order, watchers, members)
    {
      ghost var was := members;
      order := [];
      var todo := batch.Keys;
      while todo != {}
        invariant batch == old(batch) && Progress(was, batch, todo, members, order)
        invariant ToldOf(old(told), told, order, watchers, members)
        decreases todo
      {
        var name :| name in todo;
        ghost var mid, before := members, told;
        ProgressOn(was, batch, todo, mid, order, name);
        ApplyToGroup(name, batch[name]);
        RespondAll(name);
        ToldOn(old(told), before, order, watchers, mid, name, Members(members, name));
        order := order + [name];
        todo := todo - {name};
      }
      assert batch.Keys - todo == batch.Keys;
      batch := map[];
    }

    /** Reduces the queue, sends it up if there is a parent, and applies it here. */
    method BatchFlush() returns (ghost order: seq<string>)
      modifies this`members, this`batch, this`told, this`sentUp
      ensures batch == map[]
      ensures rank == 0 ==> sentUp == old(sentUp)
      ensures rank > 0 ==> |sentUp| == |old(sentUp)| + 1 && old(sentUp) <= sentUp
      ensures rank > 0 ==> forall n :: Queued(sentUp[|old(sentUp)|], n) == Reduced(old(Queued(batch, n)))
      ensures forall n :: Members(members, n) == ApplyAll(old(Members(members, n)), Reduced(old(Queued(batch, n))))
      ensures members.Keys == old(members.Keys + batch.Keys)
      ensures EachOnce(order, old(batch.Keys))
      ensures told == old(told) + Announced(order, watchers, members)
    {
      BatchReduce();
      assert forall n :: Queued(batch, n) == Reduced(old(Queued(batch, n)));
      if rank > 0 {
        sentUp := sentUp + [batch];
      }
      order := BatchApply();
    }

    /** A downstream broker's updates are queued, group by group. */
    method UpdateRequest(update: Batch)
      modifies this`batch
      ensures forall n :: Queued(batch, n) == old(Queued(batch, n)) + Queued(update, n)
    {
      var todo := update.Keys;
      while todo != {}
        invariant todo <= update.Keys
        invariant forall n :: Queued(batch, n) == old(Queued(batch, n)) + Taken(update, todo, n)
        decreases todo
      {
        var name :| name in todo;
        BatchAppend(name, update[name]);
        todo := todo - {name};
      }
    }

    /** A local client joins on behalf of this broker; one client may do so per group. */
    method JoinRequest(name: string, client: nat, local: bool) returns (o: Outcome)
      modifies this`batch, this`joinedBy, this`members
      ensures o == (if !local then Rejected(EPROTO) else if name in old(joinedBy) then Rejected(EEXIST) else Accepted)
      ensures o.Accepted? ==> joinedBy == old(joinedBy)[name := client]
      ensures !o.Accepted? ==> joinedBy == old(joinedBy)
      ensures forall n ::
        Queued(batch, n) == old(Queued(batch, n)) + (if o.Accepted? && n == name then [Update({rank}, true)] else [])
      ensures forall n :: Members(members, n) == old(Members(members, n))
      ensures old(Valid()) ==> Valid()
    {
      if !local {
        return Rejected(EPROTO);
      }
      if name !in members {
        members := members[name := {}];
      }
      if name in joinedBy {
        return Rejected(EEXIST);
      }
      BatchAppend(name, [Update({rank}, true)]);
      joinedBy := joinedBy[name := client];
      return Accepted;
    }

    method LeaveRequest(name: string, local: bool) returns (o: Outcome)
      modifies this`batch, this`joinedBy
      ensures o == (if !local then Rejected(EPROTO)
                    else if name !in members || name !in old(joinedBy) then Rejected(ENOENT) else Accepted)
      ensures joinedBy == if o.Accepted? then old(joinedBy) - {name} else old(joinedBy)
      ensures forall n ::
        Queued(batch, n) == old(Queued(batch, n)) + (if o.Accepted? && n == name then [Update({rank}, false)] else [])
    {
      if !local {
        return Rejected(EPROTO);
      }
      if name !in members || name !in joinedBy {
        return Rejected(ENOENT);
      }
      BatchAppend(name, [Update({rank}, false)]);
      joinedBy := joinedBy - {name};
      return Accepted;
    }

    /** A request for the members of a group, which is answered at once, and again at every change if it is
        streaming.  Only rank 0 knows them all. */
    method GetRequest(name: string, client: nat, streaming: bool) returns (o: Outcome)
      modifies this`members, this`watchers, this`told
      ensures o == if rank != 0 then Rejected(EPROTO) else Accepted
      ensures forall n :: Members(members, n) == old(Members(members, n))
      ensures told == old(told) + if o.Accepted? then [Told(client, name, Members(members, name))] else []
      ensures forall n ::
        Watching(watchers, n) == old(Watching(watchers, n)) + (if o.Accepted? && streaming && n == name then [client] else [])
      ensures old(Valid()) ==> Valid()
    {
      if rank != 0 {
        return Rejected(EPROTO);
      }
      if name !in members {
        members := members[name := {}];
      }
      told := told + [Told(client, name, members[name])];
      if streaming {
        watchers := watchers[name := Watching(watchers, name) + [client]];
      }
      return Accepted;
    }

    /** Leaves every group this client had joined. */
    method LeaveAll(client: nat)
      requires batch == map[]
      modifies this`batch, this`joinedBy
      ensures joinedBy == Staying(old(joinedBy), client, {})
      ensures forall n ::
        Queued(batch, n) == if n in old(joinedBy) && old(joinedBy)[n] == client then [Update({rank}, false)] else []
    {
      ghost var joined := joinedBy;
      var todo := joinedBy.Keys;
      while todo != {}
        invariant todo <= joined.Keys
        invariant joinedBy == Staying(joined, client, todo)
        invariant forall n :: Queued(batch, n) == Leaves(rank, joined, client, todo, n)
        decreases todo
      {
        var name :| name in todo;
        if joinedBy[name] == client {
          BatchAppend(name, [Update({rank}, false)]);
          joinedBy := joinedBy - {name};
        }
        todo := todo - {name};
        assert joinedBy == Staying(joined, client, todo);
      }
    }

    /** A client goes away: pending updates are flushed, then every group it had joined is left, and
        its watches are dropped.  The flush sends up what was queued before and tells the watchers of
        those groups, the client among them; the leaves are still to be sent. */
    method Disconnect(client: nat) returns (ghost order: seq<string>)
      modifies this
      ensures rank == 0 ==> sentUp == old(sentUp)
      ensures rank > 0 ==> |sentUp| == |old(sentUp)| + 1 && old(sentUp) <= sentUp
      ensures rank > 0 ==> forall n :: Queued(sentUp[|old(sentUp)|], n) == Reduced(old(Queued(batch, n)))
      ensures EachOnce(order, old(batch.Keys))
      ensures told == old(told) + Announced(order, old(watchers), members)
      ensures joinedBy == Staying(old(joinedBy), client, {})
      ensures forall n ::
        Queued(batch, n) == if n in old(joinedBy) && old(joinedBy)[n] == client then [Update({rank}, false)] else []
      ensures forall n :: Members(members, n) == ApplyAll(old(Members(members, n)), Reduced(old(Queued(batch, n))))
      ensures forall n :: Watching(watchers, n) == Without(old(Watching(watchers, n)), client)
      ensures old(Valid()) ==> Valid()
    {
      order := BatchFlush();
      LeaveAll(client);
      watchers := map n | n in watchers :: Without(watchers[n], client);
    }
  }

  /** What has been taken of an update once the groups outside `todo` have been queued. */
  ghost function Taken(update: Batch, todo: set<string>, n: string): seq<Update>
  {
    if n in update && n !in todo then update[n] else []
  }

  /** What is queued for a group once the client's joins outside `todo` have been dropped. */
  ghost function Leaves(rank: nat, joined: map<string, nat>, client: nat, todo: set<string>, n: string): seq<Update>
  {
    if n in joined && n !in todo && joined[n] == client then [Update.Update({rank}, false)] else []
  }

  /** The joins that remain once the client's joins outside `todo` have been dropped. */
  ghost function Staying(joined: map<string, nat>, client: nat, todo: set<string>): map<string, nat>
  {
    map n | n in joined && (n in todo || joined[n] != client) :: joined[n]
  }

  function Without(ws: seq<nat>, client: nat): seq<nat>
  {
    if ws == [] then []
    else Without(ws[..|ws| - 1], client) + (if ws[|ws| - 1] == client then [] else [ws[|ws| - 1]])
  }

  lemma {:induction false} WithoutAppend(a: seq<nat>, b: seq<nat>, client: nat)
    ensures Without(a + b, client) == Without(a, client) + Without(b, client)
    decreases |b|
  {
    if b == [] {
      assert a + b == a;
    } else {
      var n := |b| - 1;
      assert (a + b)[..|a| + n] == a + b[..n];
      WithoutAppend(a, b[..n], client);
    }
  }

  /** Exactly the other clients' watches stay, in their order. */
  lemma WithoutKeepsOthers(a: seq<nat>, w: nat, b: seq<nat>, client: nat)
    ensures Without(a + [w] + b, client) == Without(a, client) + (if w == client then [] else [w]) + Without(b, client)
  {
    WithoutAppend(a + [w], b, client);
    WithoutAppend(a, [w], client);
    assert [w][..0] == [];
  }

  /** A reply to a watcher of a group. */
  datatype Told = Told(watcher: nat, name: string, members: set<int>)

  function Watching(watchers: map<string, seq<nat>>, name: string): seq<nat>
  {
    if name in watchers then watchers[name] else []
  }

  function Replies(name: string, ws: seq<nat>, members: set<int>): seq<Told>
  {
    if ws == [] then [] else Replies(name, ws[..|ws| - 1], members) + [Told(ws[|ws| - 1], name, members)]
  }

  /** The i-th reply goes to the i-th watcher, with the group's members. */
  lemma {:induction false} RepliesInOrder(name: string, ws: seq<nat>, members: set<int>)
    ensures |Replies(name, ws, members)| == |ws|
    ensures forall i :: 0 <= i < |ws| ==> Replies(name, ws, members)[i] == Told(ws[i], name, members)
  {
    if ws != [] {
      RepliesInOrder(name, ws[..|ws| - 1], members);
    }
  }

  /** A group's members when all groups but those in `todo` have been brought up to date. */
  ghost function Half(was: map<string, set<int>>, batch: Batch, todo: set<string>, n: string): set<int>
  {
    if n in batch && n !in todo then ApplyAll(Members(was, n), batch[n]) else Members(was, n)
  }

  /** All groups but those in `todo` have been brought up to date, in this order. */
  ghost predicate Progress(was: map<string, set<int>>, batch: Batch, todo: set<string>,
                           members: map<string, set<int>>, order: seq<string>)
  {
    && todo <= batch.Keys && members.Keys == was.Keys + (batch.Keys - todo)
    && (forall n :: Members(members, n) == Half(was, batch, todo, n))
    && EachOnce(order, batch.Keys - todo)
  }

  /** The sequence lists each of these names once, and no other. */
  ghost predicate EachOnce(order: seq<string>, names: set<string>)
  {
    && (forall n :: n in names <==> n in order)
    && (forall i, j :: 0 <= i < j < |order| ==> order[i] != order[j])
  }

  lemma OneMoreName(order: seq<string>, names: set<string>, name: string)
    requires EachOnce(order, names) && name !in names
    ensures EachOnce(order + [name], names + {name})
  {
    assert forall i :: 0 <= i < |order| ==> order[i] in order;
  }

  lemma OneMoreGroup(was: map<string, set<int>>, batch: Batch, todo: set<string>, members: map<string, set<int>>,
                     name: string, n: string)
    requires name in todo && name in batch
    requires Members(members, n) == Half(was, batch, todo, n)
    requires Members(members, name) == Half(was, batch, todo, name)
    ensures Members(members[name := ApplyAll(Members(members, name), batch[name])], n)
         == Half(was, batch, todo - {name}, n)
  {
  }

  lemma ProgressOn(was: map<string, set<int>>, batch: Batch, todo: set<string>,
                   members: map<string, set<int>>, order: seq<string>, name: string)
    requires Progress(was, batch, todo, members, order) && name in todo
    ensures name !in order
    ensures Progress(was, batch, todo - {name}, members[name := ApplyAll(Members(members, name), batch[name])], order + [name])
  {
    OneMoreName(order, batch.Keys - todo, name);
    assert batch.Keys - (todo - {name}) == (batch.Keys - todo) + {name};
    forall n
      ensures Members(members[name := ApplyAll(Members(members, name), batch[name])], n)
           == Half(was, batch, todo - {name}, n)
    {
      OneMoreGroup(was, batch, todo, members, name, n);
    }
  }

  /** The replies for these groups, one after the other, when their members are as given. */
  function Announced(order: seq<string>, watchers: map<string, seq<nat>>, members: map<string, set<int>>): seq<Told>
  {
    if order == [] then [] else
      var k := |order| - 1;
      Announced(order[..k], watchers, members)
        + Replies(order[k], Watching(watchers, order[k]), Members(members, order[k]))
  }

  /** The watchers of these groups, and only they, are told, and what they are told is the members. */
  lemma {:induction false} AnnouncedToWatchers(order: seq<string>, watchers: map<string, seq<nat>>,
                                               members: map<string, set<int>>, t: Told)
    ensures t in Announced(order, watchers, members)
       <==> t.name in order && t.watcher in Watching(watchers, t.name) && t.members == Members(members, t.name)
  {
    if order != [] {
      var k := |order| - 1;
      AnnouncedToWatchers(order[..k], watchers, members, t);
      var ws := Watching(watchers, order[k]);
      RepliesInOrder(order[k], ws, Members(members, order[k]));
      if t.name == order[k] && t.watcher in ws && t.members == Members(members, t.name) {
        var i :| 0 <= i < |ws| && ws[i] == t.watcher;
        assert Replies(order[k], ws, Members(members, order[k]))[i] == t;
      }
      assert order == order[..k] + [order[k]];
    }
  }

  /** The watchers of these groups have been told their members since `before`. */
  ghost predicate ToldOf(before: seq<Told>, told: seq<Told>, order: seq<string>,
                         watchers: map<string, seq<nat>>, members: map<string, set<int>>)
  {
    told == before + Announced(order, watchers, members)
  }

  lemma ToldOn(before: seq<Told>, told: seq<Told>, order: seq<string>, watchers: map<string, seq<nat>>,
               members: map<string, set<int>>, name: string, ms: set<int>)
    requires ToldOf(before, told, order, watchers, members) && name !in order
    ensures ToldOf(before, told + Replies(name, Watching(watchers, name), ms), order + [name], watchers, members[name := ms])
  {
    AnnouncedSame(order, watchers, members, members[name := ms]);
    AnnouncedOneMore(order, watchers, members[name := ms], name);
  }

  lemma AnnouncedOneMore(order: seq<string>, watchers: map<string, seq<nat>>, members: map<string, set<int>>, n: string)
    ensures Announced(order + [n], watchers, members)
         == Announced(order, watchers, members) + Replies(n, Watching(watchers, n), Members(members, n))
  {
    assert (order + [n])[..|order|] == order;
  }

  lemma {:induction false} AnnouncedSame(order: seq<string>, watchers: map<string, seq<nat>>,
                                         members: map<string, set<int>>, after: map<string, set<int>>)
    requires forall i :: 0 <= i < |order| ==> Members(after, order[i]) == Members(members, order[i])
    ensures Announced(order, watchers, after) == Announced(order, watchers, members)
  {
    if order != [] {
      AnnouncedSame(order[..|order| - 1], watchers, members, after);
    }
  }
}
