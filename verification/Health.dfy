/** The health check on objects: a loop that pings and marks clients, and a loop that purges the marked ones. */
module Health {
  import opened Basics
  import opened Uuids
  import opened Messages
  import opened ClientObject
  import opened ServerObject
  import opened Commands
  import D = Departure
  import S = Machine

  // First loop

  /** The state when the clients in `done` were inspected, in whatever order. */
  ghost function Seen(s: S.State, now: S.Time, done: set<Uuid>): S.State {
    s.(clients := map k | k in s.clients :: if k in done then S.Checked(s.clients[k], now) else s.clients[k],
       outbox := Deliver(Deliver(s.outbox, S.PingedIn(s, now) * done, Ping(now)),
                         S.ExpiredIn(s, now) * done, PingTimeout))
  }

  /** Inspecting one client. */
  ghost function One(s: S.State, k: Uuid, now: S.Time): S.State
    requires k in s.clients
  {
    var c := s.clients[k];
    var t := s.(clients := s.clients[k := S.Checked(c, now)]);
    if S.Expired(c, now) then S.Cast(t, {k}, PingTimeout)
    else if S.NeedsPing(c, now) then S.Cast(t, {k}, Ping(now))
    else t
  }

  lemma SameBoxes(l: Outbox, r: Outbox)
    requires l.Keys == r.Keys && forall id: Uuid :: Box(l, id) == Box(r, id)
    ensures l == r
  {
    forall id | id in l ensures l[id] == r[id] {
      assert Box(l, id) == Box(r, id);
    }
  }

  /** Messages to different clients can be sent in either order. */
  lemma DeliverPast(out: Outbox, a: set<Uuid>, m: Msg, b: set<Uuid>, n: Msg, k: Uuid)
    requires k !in a && k !in b
    ensures Deliver(Deliver(Deliver(out, a, m), b, n), {k}, m) == Deliver(Deliver(out, a + {k}, m), b, n)
  {
    hide Deliver, Box;
    SameBoxes(Deliver(Deliver(Deliver(out, a, m), b, n), {k}, m), Deliver(Deliver(out, a + {k}, m), b, n));
  }

  lemma SeenBoxes(out: Outbox, p: set<Uuid>, e: set<Uuid>, done: set<Uuid>, k: Uuid, m: Msg, n: Msg)
    requires k !in done && !(k in p && k in e)
    ensures Deliver(Deliver(out, p * (done + {k}), m), e * (done + {k}), n) ==
            var now := Deliver(Deliver(out, p * done, m), e * done, n);
            if k in e then Deliver(now, {k}, n) else if k in p then Deliver(now, {k}, m) else now
  {
    SeenGroup(p, done, k);
    SeenGroup(e, done, k);
    hide Deliver;
    if k in e {
      DeliverJoin(Deliver(out, p * done, m), e * done, {k}, n);
    } else if k in p {
      DeliverPast(out, p * done, m, e * done, n, k);
    }
  }

  lemma SeenNext(s: S.State, now: S.Time, done: set<Uuid>, k: Uuid)
    requires k in s.clients && k !in done
    ensures k in Seen(s, now, done).clients && Seen(s, now, done).clients[k] == s.clients[k]
    ensures One(Seen(s, now, done), k, now) == Seen(s, now, done + {k})
  {
    var p, e := S.PingedIn(s, now), S.ExpiredIn(s, now);
    SeenClients(s, now, done, k);
    assert (k in e <==> S.Expired(s.clients[k], now)) && (k in p <==> S.NeedsPing(s.clients[k], now));
    assert S.Expired(s.clients[k], now) ==> !S.NeedsPing(s.clients[k], now);
    hide Deliver, S.Expired, S.NeedsPing, S.PingedIn, S.ExpiredIn, S.Checked;
    SeenBoxes(s.outbox, p, e, done, k, Ping(now), PingTimeout);
  }

  lemma SeenGroup(group: set<Uuid>, done: set<Uuid>, k: Uuid)
    ensures group * (done + {k}) == if k in group then group * done + {k} else group * done
  {
  }

  lemma SeenClients(s: S.State, now: S.Time, done: set<Uuid>, k: Uuid)
    requires k in s.clients && k !in done
    ensures Seen(s, now, done + {k}).clients == Seen(s, now, done).clients[k := S.Checked(s.clients[k], now)]
  {
    hide S.Checked, Deliver;
  }

  lemma SeenEnds(s: S.State, now: S.Time)
    ensures Seen(s, now, {}) == s
    ensures Seen(s, now, s.clients.Keys) == S.Inspect(s, now)
  {
    assert Seen(s, now, {}).clients == s.clients;
    assert Seen(s, now, s.clients.Keys).clients == S.Inspect(s, now).clients;
    assert S.PingedIn(s, now) * {} == {} && S.ExpiredIn(s, now) * {} == {};
    assert S.PingedIn(s, now) * s.clients.Keys == S.PingedIn(s, now)
      && S.ExpiredIn(s, now) * s.clients.Keys == S.ExpiredIn(s, now);
    NobodyTold(s.outbox, Ping(now));
    NobodyTold(s.outbox, PingTimeout);
  }

  lemma NobodyTold(out: Outbox, m: Msg)
    ensures Deliver(out, {}, m) == out
  {
  }

  /** Idle for a minute: either the timeout is over, or a ping gives one more cycle to reply. */
  method InspectOne(server: Server, client: Client, now: S.Time) returns (expired: bool)
    requires Serves(server, client)
    modifies server.Parts()
    ensures server.Valid() && server.Parts() == old(server.Parts()) && server.clients == old(server.clients)
    ensures expired <==> S.Expired(old(client.Record()), now)
    ensures server.Abs() == One(old(server.Abs()), client.id, now)
  {
    hide Deliver;
    expired := false;
    if client.lastAction < now - S.PING_CHECK_IDLE {
      if client.lastPing < now - S.PING_TIMEOUT {
        server.wire.Send(client.id, PingTimeout);
        expired := true;
        client.SetStatus(S.Zombie);
      } else if client.lastPing < now - S.PING_CHECK_IDLE {
        server.wire.Send(client.id, Ping(now));
        client.UpdateLastActionTime(now);
      }
    }
    server.ClientOnly(client.id);
  }

  method InspectAll(server: Server, now: S.Time) returns (expired: seq<Uuid>)
    requires server.Valid()
    modifies server.Parts()
    ensures server.Valid() && server.Parts() == old(server.Parts()) && server.clients == old(server.clients)
    ensures Enumerates(expired, S.ExpiredIn(old(server.Abs()), now))
    ensures server.Abs() == S.Inspect(old(server.Abs()), now)
  {
    hide Deliver, Seen, One, S.Expired, S.Inspect, Enumerates;
    ghost var s := server.Abs();
    ghost var all, late := server.clients.Keys, S.ExpiredIn(s, now);
    assert forall k :: k in s.clients ==> (k in late <==> S.Expired(s.clients[k], now));
    assert late <= all && s.clients.Keys == all;
    SeenEnds(s, now);
    expired := [];
    var rest := server.clients.Keys;
    NoTurns(late, rest);
    assert all - rest == {};
    while rest != {}
      invariant server.Valid() && server.Parts() == old(server.Parts()) && server.clients == old(server.clients)
      invariant rest <= all && server.Abs() == Seen(s, now, all - rest)
      invariant Enumerates(expired, late - rest)
      decreases rest
    {
      var k :| k in rest;
      SeenNext(s, now, all - rest, k);
      OneMoreTurn(expired, k, late, rest);
      assert all - (rest - {k}) == (all - rest) + {k};
      rest := rest - {k};
      var gone := InspectOne(server, server.clients[k], now);
      if gone {
        expired := expired + [k];
      }
    }
    assert all - {} == all && late - {} == late;
  }

  // Second loop

  method PurgeOne(server: Server, id: Uuid) returns (ghost order: seq<Uuid>)
    requires server.Valid() && id in server.clients
    modifies server.Parts()
    ensures server.Valid() && server.Parts() <= old(server.Parts())
    ensures Enumerates(order, old(server.clients[id].channels))
    ensures server.Abs() == S.Purge(old(server.Abs()), id, order)
    ensures server.Abs().clients == old(server.Abs()).clients - {id}
  {
    var client := server.clients[id];
    var name := client.name;
    assert id in server.Abs().clients && server.Abs().clients[id] == client.Record() && client.id == id;
    hide S.TearAll, Enumerates, Server.Abs, Server.Valid;
    order := QuitAll(server, id, client.channels, name, "ping timeout: 180 seconds");
    TearAllClients(old(server.Abs()), id, order, name, "ping timeout: 180 seconds");
    Forget(server, client);
  }

  /** Clear the client's own list and unregister it. */
  method Forget(server: Server, client: Client)
    requires Serves(server, client)
    modifies server.Parts()
    ensures server.Valid() && server.Parts() <= old(server.Parts())
            && server.clients == old(server.clients) - {client.id}
    ensures server.Abs() == S.DropClient(old(server.Abs()), client.id)
    ensures client.channels == {}
  {
    client.ClearChannels();
    server.ClientOnly(client.id);
    PutThenDrop(server.Abs(), old(server.Abs()).clients, client.id, client.Record());
    server.RemoveClient(client.id);
  }

  lemma TearAllClients(s: S.State, id: Uuid, order: seq<Uuid>, name: string, reason: string)
    ensures S.TearAll(s, id, order, name, reason, false).clients == s.clients
  {
    D.TearAllTorn(s, id, order, name, reason, false);
  }

  /** The purges of a health check, part of the way. */
  ghost predicate Purging(s: S.State, t: S.State, found: seq<Uuid>, plan: seq<S.Victim>) {
    && |plan| <= |found|
    && (forall i :: 0 <= i < |plan| ==>
          plan[i].id == found[i] && found[i] in s.clients && Enumerates(plan[i].order, s.clients[found[i]].channels))
    && t == S.PurgeAll(s, plan)
    && (forall k :: k in s.clients && k !in found[..|plan|] ==> k in t.clients && t.clients[k] == s.clients[k])
  }

  lemma PurgingNext(s: S.State, t: S.State, found: seq<Uuid>, plan: seq<S.Victim>, order: seq<Uuid>, u: S.State)
    requires Purging(s, t, found, plan) && |plan| < |found| && Distinct(found) && found[|plan|] in s.clients
    requires Enumerates(order, s.clients[found[|plan|]].channels)
    requires u == S.Purge(t, found[|plan|], order) && u.clients == t.clients - {found[|plan|]}
    ensures Purging(s, u, found, plan + [S.Victim(found[|plan|], order)])
  {
    hide S.Purge, Enumerates;
    var n := |plan|;
    var more := plan + [S.Victim(found[n], order)];
    assert more[..n] == plan && found[..n + 1] == found[..n] + [found[n]];
  }

  lemma PurgingAt(s: S.State, t: S.State, found: seq<Uuid>, plan: seq<S.Victim>)
    requires Purging(s, t, found, plan) && |plan| < |found| && Distinct(found) && found[|plan|] in s.clients
    ensures found[|plan|] in t.clients && t.clients[found[|plan|]] == s.clients[found[|plan|]]
  {
    NotBefore(found, |plan|);
  }

  method PurgeFound(server: Server, found: seq<Uuid>) returns (ghost plan: seq<S.Victim>)
    requires server.Valid() && Distinct(found) && forall k :: k in found ==> k in server.clients
    modifies server.Parts()
    ensures server.Valid() && server.Parts() <= old(server.Parts())
    ensures |plan| == |found| && Purging(old(server.Abs()), server.Abs(), found, plan)
  {
    hide S.Purge, S.PurgeAll, Enumerates, Distinct;
    plan := [];
    ghost var s := server.Abs();
    assert Purging(s, s, found, []) by {
      assert S.PurgeAll(s, []) == s by {
        PurgeNone(s);
      }
    }
    hide Purging;
    for i := 0 to |found|
      invariant server.Valid() && server.Parts() <= old(server.Parts())
      invariant |plan| == i && Purging(s, server.Abs(), found, plan)
    {
      ghost var now := server.Abs();
      assert found[i] in s.clients;
      PurgingAt(s, now, found, plan);
      ghost var order := PurgeOne(server, found[i]);
      PurgingNext(s, now, found, plan, order, server.Abs());
      plan := plan + [S.Victim(found[i], order)];
    }
  }

  lemma PurgeNone(s: S.State)
    ensures S.PurgeAll(s, []) == s
  {
  }

  lemma PurgingIsPlan(s0: S.State, s: S.State, t: S.State, found: seq<Uuid>, plan: seq<S.Victim>, all: set<Uuid>)
    requires Purging(s, t, found, plan) && |plan| == |found| && Distinct(found)
    requires s.clients.Keys == s0.clients.Keys && all <= s.clients.Keys && forall k :: k in found <==> k in all
    requires forall k :: k in s.clients ==> s.clients[k].channels == s0.clients[k].channels
    ensures S.Plans(s0, all, plan) && t == S.PurgeAll(s, plan)
  {
    hide Enumerates, S.PurgeAll;
    forall k | k in all ensures exists i :: 0 <= i < |plan| && plan[i].id == k {
      var i :| 0 <= i < |found| && found[i] == k;
      assert plan[i].id == k;
    }
  }

  lemma InspectParts(s: S.State, now: S.Time)
    ensures var t := S.Inspect(s, now);
            && t.clients.Keys == s.clients.Keys
            && (forall k :: k in s.clients ==> t.clients[k].channels == s.clients[k].channels)
            && S.ExpiredIn(s, now) <= s.clients.Keys
  {
    hide Deliver;
  }

  /** The whole check: one legal step of the machine. */
  method CheckClientPings(server: Server, now: S.Time) returns (ghost plan: seq<S.Victim>)
    requires server.Valid()
    modifies server.Parts()
    ensures server.Valid() && server.Parts() <= old(server.Parts())
    ensures S.Plans(old(server.Abs()), S.ExpiredIn(old(server.Abs()), now), plan)
    ensures server.Abs() == S.Apply(old(server.Abs()), S.Check(now, plan))
  {
    hide S.Inspect, S.ExpiredIn, Purging, Distinct, Enumerates, S.PurgeAll, S.Plans;
    ghost var s0 := server.Abs();
    InspectParts(s0, now);
    var expired := InspectAll(server, now);
    ghost var s := server.Abs();
    ListedOnce(expired, S.ExpiredIn(s0, now));
    plan := PurgeFound(server, expired);
    PurgingIsPlan(s0, s, server.Abs(), expired, plan, S.ExpiredIn(s0, now));
  }
}
