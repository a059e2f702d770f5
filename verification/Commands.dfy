/** The commands of connected clients, working on the server's objects. Each is proved to be the machine's step;
    the iteration orders it happened to take are its ghost results. */
module Commands {
  import opened Basics
  import opened Uuids
  import opened Messages
  import opened ClientObject
  import opened ServerObject
  import D = Departure
  import S = Machine
  import M = Modes
  import T = Text

  /** The client issues commands on this server. */
  ghost predicate Serves(server: Server, client: Client)
    reads server.Parts()
  {
    server.Valid() && client.id in server.clients && server.clients[client.id] == client
  }

  // Teardown

  /** One turn of the loops in kill and ping purge: tell the others, then take the member out. */
  method QuitTurn(server: Server, id: Uuid, cid: Uuid, name: string, reason: string)
    requires server.Valid()
    modifies server.Parts()
    ensures server.Valid() && server.Parts() <= old(server.Parts()) && server.clients == old(server.clients)
    ensures server.Abs() == S.Tear(old(server.Abs()), id, cid, name, reason, false)
  {
    if cid in server.channels {
      var channel := server.channels[cid];
      channel.SendToAllButOne(server.wire, id, Quit(cid, id, name, reason));
      channel.RemoveMember(id);
      server.ChannelOnly(cid);
      if channel.CountMembers() == 0 && !channel.HasOption(M.Persist) {
        server.RemoveChannel(cid);
      }
    }
  }

  method Kill(server: Server, client: Client, target: Uuid, reason: string) returns (ghost order: seq<Uuid>)
    requires Serves(server, client)
    modifies server.Parts()
    ensures server.Valid() && server.Parts() <= old(server.Parts())
    ensures forall k :: k in server.clients ==> k in old(server.clients) && server.clients[k] == old(server.clients[k])
    ensures target in old(server.clients) ==> Enumerates(order, old(server.clients[target].channels))
    ensures server.Abs() == S.Kill(old(server.Abs()), client.id, target, reason, order)
  {
    hide S.TearAll, S.Tell, T.Escape, Deliver, S.WallopTo, Enumerates;
    order := [];
    if target in server.clients {
      order := AnyOrder(server.clients[target].channels);
    }
    if client.kind != S.Agent {
      Report(server, client, PermissionDenied);
      return;
    }
    if target !in server.clients {
      Report(server, client, NameInvalid);
      return;
    }
    var victim := server.clients[target];
    if victim.HasOption(S.Admin) {
      Report(server, client, PermissionDenied);
      return;
    }
    var clean := T.Escape(reason);
    if |clean| > 255 {
      Report(server, client, InvalidArgument);
      return;
    }
    if |clean| == 0 {
      clean := S.NO_REASON;
    }
    order := Strike(server, client.name, victim, clean);
  }

  /** What a permitted kill does. */
  ghost function Struck(s: S.State, killer: string, victim: S.ClientRec, why: string, order: seq<Uuid>): S.State {
    var s1 := S.TearAll(s, victim.id, order, victim.name, "Killed (" + why + ")", false);
    var s2 := S.DropClient(S.Cast(s1, {victim.id}, Trouble(KickedFromServer)), victim.id);
    S.Cast(s2, S.WallopTo(s2), KillNotice(killer, victim.name, victim.ip, why))
  }

  method Strike(server: Server, killer: string, victim: Client, why: string) returns (ghost order: seq<Uuid>)
    requires Serves(server, victim)
    modifies server.Parts()
    ensures server.Valid() && server.Parts() <= old(server.Parts())
            && server.clients == old(server.clients) - {victim.id}
    ensures Enumerates(order, old(victim.channels))
    ensures server.Abs() == Struck(old(server.Abs()), killer, old(victim.Record()), why, order)
  {
    hide S.TearAll, Deliver, S.WallopTo, Enumerates;
    var killed, ip := victim.name, victim.ip;
    order := QuitAll(server, victim.id, victim.channels, killed, "Killed (" + why + ")");
    Dismiss(server, victim, KickedFromServer);
    var _ := server.SendToWallops(KillNotice(killer, killed, ip, why));
  }

  /** Clear the client's own list, send it a last message and unregister it. */
  method Dismiss(server: Server, victim: Client, code: Problem)
    requires Serves(server, victim)
    modifies server.Parts()
    ensures server.Valid() && server.Parts() <= old(server.Parts())
            && server.clients == old(server.clients) - {victim.id}
    ensures server.Abs() == S.DropClient(S.Tell(old(server.Abs()), victim.id, code), victim.id)
    ensures victim.channels == {}
  {
    hide Deliver;
    victim.ClearChannels();
    server.wire.Send(victim.id, Trouble(code));
    server.ClientOnly(victim.id);
    PutThenDrop(server.Abs(), old(server.Abs()).clients, victim.id, victim.Record());
    server.RemoveClient(victim.id);
  }

  lemma PutThenDrop(s: S.State, clients: map<Uuid, S.ClientRec>, id: Uuid, c: S.ClientRec)
    requires s.clients == clients[id := c]
    ensures S.DropClient(s, id).clients == clients - {id}
  {
  }

  method Report(server: Server, client: Client, code: Problem)
    requires server.Valid()
    modifies server.Parts()
    ensures server.Valid() && server.clients == old(server.clients) && server.channels == old(server.channels)
    ensures server.Parts() == old(server.Parts())
    ensures server.Abs() == S.Tell(old(server.Abs()), client.id, code)
  {
    server.Tell(client.id, Trouble(code));
  }

  /** The loop of kill and of the ping purge over a snapshot of the client's list. */
  method QuitAll(server: Server, id: Uuid, list: set<Uuid>, name: string, reason: string)
    returns (ghost order: seq<Uuid>)
    requires server.Valid()
    modifies server.Parts()
    ensures server.Valid() && server.Parts() <= old(server.Parts()) && server.clients == old(server.clients)
    ensures Enumerates(order, list)
    ensures server.Abs() == S.TearAll(old(server.Abs()), id, order, name, reason, false)
  {
    hide S.Tear, Enumerates;
    order := [];
    var rest := list;
    NoTurns(list, rest);
    while rest != {}
      invariant server.Valid() && server.Parts() <= old(server.Parts()) && server.clients == old(server.clients)
      invariant rest <= list && Enumerates(order, list - rest)
      invariant server.Abs() == S.TearAll(old(server.Abs()), id, order, name, reason, false)
      decreases rest
    {
      var cid :| cid in rest;
      QuitTurn(server, id, cid, name, reason);
      OneMoreTurn(order, cid, list, rest);
      rest := rest - {cid};
      order := order + [cid];
    }
    assert list - {} == list;
  }

  lemma KillClients(s: S.State, actor: Uuid, target: Uuid, reason: string, order: seq<Uuid>)
    requires actor in s.clients
    ensures var t := S.Kill(s, actor, target, reason, order);
            t.clients == s.clients || t.clients == s.clients - {target}
  {
    hide T.Escape, Deliver, S.WallopTo;
    if target in s.clients {
      D.TearAllTorn(s, target, order, s.clients[target].name, "Killed (" + S.KillReason(reason) + ")", false);
    }
  }

  // Ban

  /** The clients that a ban of this address concerns, in some order. */
  method FindTargets(server: Server, ip: Ip) returns (found: seq<Uuid>)
    requires server.Valid()
    ensures Enumerates(found, S.KlineTargets(server.Abs(), ip))
    ensures forall k :: k in found <==>
              k in server.clients && server.clients[k].ip == ip && server.clients[k].kind != S.Agent
  {
    hide Enumerates;
    found := [];
    ghost var all := S.KlineTargets(server.Abs(), ip);
    var rest := server.clients.Keys;
    NoTurns(all, rest);
    while rest != {}
      invariant rest <= server.clients.Keys
      invariant Enumerates(found, all - rest)
      decreases rest
    {
      var k :| k in rest;
      var client := server.clients[k];
      assert k in all <==> client.ip == ip && client.kind != S.Agent;
      OneMoreTurn(found, k, all, rest);
      rest := rest - {k};
      if client.ip == ip && client.kind != S.Agent {
        found := found + [client.id];
      }
    }
    assert all - {} == all;
    Listing(found, all);
  }

  lemma Listing(order: seq<Uuid>, all: set<Uuid>)
    requires Enumerates(order, all)
    ensures forall x :: x in order <==> x in all
  {
  }

  ghost predicate Distinct(found: seq<Uuid>) {
    forall i, j :: 0 <= i < j < |found| ==> found[i] != found[j]
  }

  /** The kills of a ban, part of the way: `t` is reached from `s` by the plan so far. */
  ghost predicate Midway(s: S.State, t: S.State, actor: Uuid, found: seq<Uuid>, plan: seq<S.Victim>, reason: string) {
    && |plan| <= |found|
    && (forall i :: 0 <= i < |plan| ==>
          plan[i].id == found[i] && found[i] in s.clients && Enumerates(plan[i].order, s.clients[found[i]].channels))
    && t == S.KillAll(s, actor, plan, reason)
    && (forall k :: k in s.clients && k !in found[..|plan|] ==> k in t.clients && t.clients[k] == s.clients[k])
  }

  lemma MidwayStart(s: S.State, actor: Uuid, found: seq<Uuid>, reason: string)
    ensures Midway(s, s, actor, found, [], reason)
  {
  }

  lemma MidwayNext(s: S.State, t: S.State, actor: Uuid, found: seq<Uuid>, plan: seq<S.Victim>, reason: string,
                   order: seq<Uuid>)
    requires Midway(s, t, actor, found, plan, reason) && |plan| < |found| && Distinct(found)
    requires found[|plan|] in s.clients && actor in s.clients && actor !in found
    requires Enumerates(order, s.clients[found[|plan|]].channels)
    ensures actor in t.clients
    ensures Midway(s, S.Kill(t, actor, found[|plan|], reason, order), actor, found,
                   plan + [S.Victim(found[|plan|], order)], reason)
  {
    hide S.Kill, Enumerates;
    var n := |plan|;
    var more := plan + [S.Victim(found[n], order)];
    assert more[..n] == plan && found[..n + 1] == found[..n] + [found[n]] && actor !in found[..n];
    KillClients(t, actor, found[n], reason, order);
  }

  lemma MidwayAt(s: S.State, t: S.State, actor: Uuid, found: seq<Uuid>, plan: seq<S.Victim>, reason: string, k: Uuid)
    requires Midway(s, t, actor, found, plan, reason) && k in s.clients && k !in found[..|plan|]
    ensures k in t.clients && t.clients[k] == s.clients[k]
  {
  }

  lemma NotBefore(found: seq<Uuid>, i: nat)
    requires Distinct(found) && i < |found|
    ensures found[i] !in found[..i]
  {
  }

  /** The kills of a ban, one after the other. */
  method KillFound(server: Server, client: Client, found: seq<Uuid>, reason: string) returns (ghost plan: seq<S.Victim>)
    requires Serves(server, client) && client.id !in found && Distinct(found)
    requires forall k :: k in found ==> k in server.clients
    modifies server.Parts()
    ensures server.Valid() && server.Parts() <= old(server.Parts())
    ensures |plan| == |found| && Midway(old(server.Abs()), server.Abs(), client.id, found, plan, reason)
  {
    hide S.Kill, Enumerates, Midway, Distinct, S.KillAll;
    plan := [];
    ghost var s := server.Abs();
    MidwayStart(s, client.id, found, reason);
    for i := 0 to |found|
      invariant server.Valid() && server.Parts() <= old(server.Parts())
      invariant forall k :: k in server.clients ==>
                  k in old(server.clients) && server.clients[k] == old(server.clients[k])
      invariant |plan| == i && Midway(s, server.Abs(), client.id, found, plan, reason)
    {
      ghost var now := server.Abs();
      NotBefore(found, i);
      assert client.id !in found[..i];
      MidwayAt(s, now, client.id, found, plan, reason, found[i]);
      MidwayAt(s, now, client.id, found, plan, reason, client.id);
      ghost var order := Kill(server, client, found[i], reason);
      MidwayNext(s, now, client.id, found, plan, reason, order);
      plan := plan + [S.Victim(found[i], order)];
    }
  }

  /** One more turn of a loop over `rest` that lists the elements of `list`. */
  lemma OneMoreTurn(order: seq<Uuid>, k: Uuid, list: set<Uuid>, rest: set<Uuid>)
    requires k in rest && Enumerates(order, list - rest)
    ensures Enumerates(if k in list then order + [k] else order, list - (rest - {k}))
    ensures (order + [k])[..|order|] == order
  {
    if k !in list {
      assert list - (rest - {k}) == list - rest;
    }
  }

  lemma NoTurns(list: set<Uuid>, rest: set<Uuid>)
    requires list <= rest
    ensures Enumerates([], list - rest)
  {
  }

  /** Every finite set can be listed. */
  lemma AnyOrder(all: set<Uuid>) returns (order: seq<Uuid>)
    ensures Enumerates(order, all)
  {
    hide Enumerates;
    order := [];
    var rest := all;
    NoTurns(all, rest);
    while rest != {}
      invariant rest <= all && Enumerates(order, all - rest)
      decreases rest
    {
      var k :| k in rest;
      OneMoreTurn(order, k, all, rest);
      rest := rest - {k};
      order := order + [k];
    }
    assert all - {} == all;
  }

  /** A ban that is refused kills nobody, but a plan for its targets exists. */
  lemma AnyPlan(s: S.State, all: set<Uuid>) returns (plan: seq<S.Victim>)
    requires all <= s.clients.Keys
    ensures S.Plans(s, all, plan)
  {
    hide Enumerates;
    var order := AnyOrder(all);
    ListedOnce(order, all);
    plan := [];
    for i := 0 to |order|
      invariant |plan| == i && forall j :: 0 <= j < i ==> plan[j].id == order[j]
      invariant forall j :: 0 <= j < i ==> Enumerates(plan[j].order, s.clients[order[j]].channels)
    {
      var own := AnyOrder(s.clients[order[i]].channels);
      plan := plan + [S.Victim(order[i], own)];
    }
    forall k | k in all ensures exists i :: 0 <= i < |plan| && plan[i].id == k {
      var i :| 0 <= i < |order| && order[i] == k;
      assert plan[i].id == k;
    }
  }

  lemma ListedOnce(order: seq<Uuid>, all: set<Uuid>)
    requires Enumerates(order, all)
    ensures forall k :: k in order <==> k in all
    ensures Distinct(order)
  {
  }

  lemma MidwayIsPlan(s0: S.State, s: S.State, t: S.State, actor: Uuid, found: seq<Uuid>, plan: seq<S.Victim>,
                     reason: string, all: set<Uuid>)
    requires Midway(s, t, actor, found, plan, reason) && |plan| == |found| && Distinct(found)
    requires s.clients == s0.clients && all <= s.clients.Keys && forall k :: k in found <==> k in all
    ensures S.Plans(s0, all, plan) && t == S.KillAll(s, actor, plan, reason)
  {
    hide Enumerates, S.KillAll;
    forall k | k in all ensures exists i :: 0 <= i < |plan| && plan[i].id == k {
      var i :| 0 <= i < |found| && found[i] == k;
      assert plan[i].id == k;
    }
  }

  lemma TargetsAreClients(s: S.State, ip: Ip)
    ensures S.KlineTargets(s, ip) <= s.clients.Keys
    ensures forall k :: k in S.KlineTargets(s, ip) ==> s.clients[k].kind != S.Agent
  {
  }

  method Kline(server: Server, client: Client, ip: Ip, reason: string) returns (ghost plan: seq<S.Victim>)
    requires Serves(server, client)
    modifies server.Parts()
    ensures server.Valid() && server.Parts() <= old(server.Parts())
    ensures S.Plans(old(server.Abs()), S.KlineTargets(old(server.Abs()), ip), plan)
    ensures server.Abs() == S.Kline(old(server.Abs()), client.id, ip, reason, plan)
  {
    hide S.KlineTargets, S.Plans, S.Kill, S.KillAll, S.Tell, S.Banned, Deliver, S.WallopTo, Midway, Enumerates,
      Distinct;
    ghost var s, targets := server.Abs(), S.KlineTargets(server.Abs(), ip);
    TargetsAreClients(s, ip);
    if client.kind != S.Agent {
      plan := AnyPlan(s, targets);
      Report(server, client, PermissionDenied);
      return;
    }
    if S.Banned(server.bans, ip) {
      plan := AnyPlan(s, targets);
      Report(server, client, AlreadyMember);
      return;
    }
    var _ := server.AddBan(ip, reason, client.name);
    ghost var s1 := server.Abs();
    assert s1.clients == s.clients && server.Parts() == old(server.Parts());
    SameTargets(s, s1, ip);
    var found := FindTargets(server, ip);
    ListedOnce(found, targets);
    var _ := server.SendToWallops(BanNotice(client.name, ip, |found|, S.BanReason(reason)));
    ghost var s2 := server.Abs();
    assert s2.clients == s.clients;
    plan := KillFound(server, client, found, S.BanReason(reason));
    MidwayIsPlan(s, s2, server.Abs(), client.id, found, plan, S.BanReason(reason), targets);
  }

  lemma SameTargets(s: S.State, t: S.State, ip: Ip)
    requires s.clients == t.clients
    ensures S.KlineTargets(s, ip) == S.KlineTargets(t, ip)
  {
  }
}
