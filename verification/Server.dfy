/** The `Server` object: the registries of clients and channels, and the ban list. */
module ServerObject {
  import opened Basics
  import opened Uuids
  import opened Messages
  import opened ClientObject
  import opened ChannelObject
  import S = Machine
  import M = Modes
  import T = Text

  class Server {
    const conf: S.Config
    const wire: Wire
    var clients: map<Uuid, Client>
    var channels: map<Uuid, Channel>
    var bans: seq<S.Ban>
    /** Every id generated so far. */
    ghost var issued: set<Uuid>

    constructor (conf: S.Config, bans: seq<S.Ban>)
      ensures fresh(wire) && Valid()
      ensures Abs() == S.State(conf, map[], map[], bans, map[], {})
    {
      this.conf, this.bans := conf, bans;
      wire := new Wire();
      clients, channels, issued := map[], map[], {};
    }

    /** The objects that make up the server. */
    ghost function Parts(): set<object>
      reads this
    {
      {this, wire} + (set k | k in clients :: clients[k]) + (set c | c in channels :: channels[c])
    }

    ghost predicate Valid()
      reads Parts()
    {
      && (forall k :: k in clients ==> clients[k].id == k)
      && (forall c :: c in channels ==> channels[c].id == c && channels[c].Valid())
    }

    ghost function ClientTable(): map<Uuid, S.ClientRec>
      reads this`clients, set k | k in clients :: clients[k]
    {
      map k | k in clients :: clients[k].Record()
    }

    ghost function ChannelTable(): map<Uuid, S.ChannelRec>
      reads this`channels, set c | c in channels :: channels[c]
    {
      map c | c in channels :: channels[c].Record()
    }

    /** The state that the objects represent. */
    ghost function Abs(): S.State
      reads Parts()
    {
      S.State(conf, ClientTable(), ChannelTable(), bans, wire.sent, issued)
    }

    // How a change of one object changes the state

    twostate predicate SameRegistries()
      reads this
    {
      clients == old(clients) && channels == old(channels) && bans == old(bans) && issued == old(issued)
    }

    /** Only messages were sent. */
    twostate lemma MailOnly()
      requires SameRegistries() && old(Valid())
      requires forall k :: k in clients ==> unchanged(clients[k])
      requires forall c :: c in channels ==> unchanged(channels[c])
      ensures Valid() && Abs() == old(Abs()).(outbox := wire.sent)
    {
    }

    /** Only one channel changed, and messages were sent. */
    twostate lemma ChannelOnly(cid: Uuid)
      requires SameRegistries() && old(Valid()) && cid in channels && channels[cid].Valid()
      requires forall k :: k in clients ==> unchanged(clients[k])
      requires forall c :: c in channels && c != cid ==> unchanged(channels[c])
      ensures Valid() && Abs() == old(Abs()).(channels := old(Abs()).channels[cid := channels[cid].Record()],
                                              outbox := wire.sent)
    {
    }

    /** Only one client changed, and messages were sent. */
    twostate lemma ClientOnly(id: Uuid)
      requires SameRegistries() && old(Valid()) && id in clients
      requires forall k :: k in clients && k != id ==> unchanged(clients[k])
      requires forall c :: c in channels ==> unchanged(channels[c])
      ensures Valid() && Abs() == old(Abs()).(clients := old(Abs()).clients[id := clients[id].Record()],
                                              outbox := wire.sent)
    {
    }

    /** Send to one connection. */
    method Tell(id: Uuid, m: Msg)
      requires Valid()
      modifies wire
      ensures Valid() && Abs() == S.Cast(old(Abs()), {id}, m)
    {
      wire.Send(id, m);
      MailOnly();
    }

    // The registries

    method AddClient(client: Client)
      requires Valid()
      modifies this
      ensures Valid() && clients == old(clients)[client.id := client] && channels == old(channels)
      ensures Abs() == old(Abs()).(clients := old(Abs()).clients[client.id := client.Record()],
                                   issued := old(issued) + {client.id})
    {
      clients, issued := clients[client.id := client], issued + {client.id};
      assert ClientTable() == old(ClientTable())[client.id := client.Record()];
      assert ChannelTable() == old(ChannelTable());
    }

    method RemoveClient(id: Uuid)
      requires Valid()
      modifies this
      ensures Valid() && clients == old(clients) - {id} && channels == old(channels)
      ensures Abs() == S.DropClient(old(Abs()), id)
    {
      clients := clients - {id};
      assert ClientTable() == old(ClientTable()) - {id};
      assert ChannelTable() == old(ChannelTable());
    }

    method AddChannel(channel: Channel)
      requires Valid() && channel.Valid()
      modifies this
      ensures Valid() && channels == old(channels)[channel.id := channel] && clients == old(clients)
      ensures Parts() <= old(Parts()) + {channel}
      ensures Abs() == old(Abs()).(channels := old(Abs()).channels[channel.id := channel.Record()],
                                   issued := old(issued) + {channel.id})
    {
      channels, issued := channels[channel.id := channel], issued + {channel.id};
      assert ChannelTable() == old(ChannelTable())[channel.id := channel.Record()];
      assert ClientTable() == old(ClientTable());
    }

    method RemoveChannel(cid: Uuid)
      requires Valid()
      modifies this
      ensures Valid() && channels == old(channels) - {cid} && clients == old(clients)
      ensures Abs() == old(Abs()).(channels := old(Abs()).channels - {cid})
    {
      channels := channels - {cid};
    }

    /** A ban is only added once per address. */
    method AddBan(ip: Ip, reason: string, addedBy: string) returns (ok: bool)
      requires Valid()
      modifies this
      ensures Valid() && clients == old(clients) && channels == old(channels)
      ensures ok <==> !S.Banned(old(bans), ip)
      ensures Abs() == old(Abs()).(bans := if ok then old(bans) + [S.Ban(ip, reason, addedBy)] else old(bans))
    {
      ok := !S.Banned(bans, ip);
      if ok {
        bans := bans + [S.Ban(ip, reason, addedBy)];
      }
    }

    // Lookups: the tables are searched in no particular order

    method ClientNameToUuid(name: string) returns (found: Option<Uuid>)
      requires Valid()
      ensures found.Some? ==> found.value in clients && clients[found.value].name == name
      ensures found.Some? <==> S.NameTaken(Abs(), name)
    {
      var rest := clients.Keys;
      while rest != {}
        invariant rest <= clients.Keys
        invariant forall k :: k in clients && k !in rest ==> clients[k].name != name
        decreases rest
      {
        var k :| k in rest;
        rest := rest - {k};
        if clients[k].name == name {
          assert Abs().clients[k].name == name;
          return Some(clients[k].id);
        }
      }
      return None;
    }

    method GetChannelByName(name: string) returns (found: Option<Uuid>)
      requires Valid()
      ensures S.ExactLookup(Abs(), name, found)
      ensures found.Some? ==> found.value in channels
    {
      var rest := channels.Keys;
      while rest != {}
        invariant rest <= channels.Keys
        invariant forall c :: c in channels && c !in rest ==> channels[c].name != name
        decreases rest
      {
        var c :| c in rest;
        rest := rest - {c};
        if channels[c].name == name {
          return Some(channels[c].id);
        }
      }
      return None;
    }

    method ChannelNameToUuid(name: string) returns (found: Option<Uuid>)
      requires Valid()
      ensures S.LowerLookup(Abs(), name, found)
      ensures found.Some? ==> found.value in channels
    {
      hide T.Lower;
      var rest := channels.Keys;
      while rest != {}
        invariant rest <= channels.Keys
        invariant forall c :: c in channels && c !in rest ==> T.Lower(channels[c].name) != T.Lower(name)
        decreases rest
      {
        var c :| c in rest;
        rest := rest - {c};
        if T.Lower(channels[c].name) == T.Lower(name) {
          return Some(channels[c].id);
        }
      }
      return None;
    }

    lemma WallopsAre(k: Uuid)
      requires k in clients
      ensures k in S.WallopTo(Abs()) <==> clients[k].status == S.Connected && clients[k].kind == S.Agent
    {
    }

    lemma WallopsInside()
      ensures S.WallopTo(Abs()) <= clients.Keys
    {
    }

    /** Tell all connected agents, and count them. */
    method SendToWallops(m: Msg) returns (count: nat)
      requires Valid()
      modifies wire
      ensures Valid() && Abs() == S.Cast(old(Abs()), S.WallopTo(old(Abs())), m)
      ensures count == |S.WallopTo(old(Abs()))|
    {
      WallopsInside();
      forall k | k in clients
        ensures k in S.WallopTo(Abs()) <==> clients[k].status == S.Connected && clients[k].kind == S.Agent
      {
        WallopsAre(k);
      }
      count := VisitClients(S.WallopTo(Abs()), m);
      MailOnly();
    }

    method VisitClients(ghost all: set<Uuid>, m: Msg) returns (count: nat)
      requires forall k :: k in clients ==> clients[k].id == k
      requires forall k :: k in clients ==>
               (k in all <==> clients[k].status == S.Connected && clients[k].kind == S.Agent)
      requires all <= clients.Keys
      modifies wire
      ensures wire.sent == Deliver(old(wire.sent), all, m) && count == Size(all)
    {
      hide Deliver, Size;
      var rest := clients.Keys;
      count := 0;
      NobodyYet(wire.sent, all, rest, m);
      NobodyCounted(all, rest);
      while rest != {}
        invariant rest <= clients.Keys
        invariant wire.sent == Deliver(old(wire.sent), all - rest, m)
        invariant count == Size(all - rest)
        decreases rest
      {
        var k :| k in rest;
        OneMore(old(wire.sent), all, rest, k, m);
        OneCounted(all, rest, k);
        rest := rest - {k};
        var client := clients[k];
        if client.status == S.Connected && client.kind == S.Agent {
          wire.Send(client.id, m);
          count := count + 1;
        }
      }
      assert all - {} == all;
    }

    /** One of the default channels, if the configuration asks for it. */
    method CreateLobby(use: bool, id: Uuid, name: string, topic: Option<string>, options: M.Options)
      requires Valid()
      modifies this
      ensures Valid() && fresh(Parts() - old(Parts())) && clients == old(clients)
      ensures Abs() == S.AddLobby(old(Abs()), use, S.Lobby(id, name, topic, options))
    {
      if use {
        var c := new Channel(id, name, None);
        c.SetOptions(options);
        c.SetTopic(topic);
        MailOnly();
        AddChannel(c);
      }
    }

    /** The lobbies of the configuration, with ids from outside. */
    method CreateDefaultChannels(global: Uuid, staff: Uuid, guest: Uuid)
      requires Valid() && clients == map[] && channels == map[] && wire.sent == map[] && issued == {}
      modifies this
      ensures Valid() && fresh(Parts() - old(Parts()))
      ensures Abs() == S.Start(S.Setup(conf, old(bans), global, staff, guest))
    {
      assert Abs() == S.State(conf, map[], map[], bans, map[], {});
      hide Abs, Valid, Parts, S.AddLobby;
      CreateLobby(conf.useGlobal, global, S.GLOBAL_LOBBY, Some(S.GLOBAL_TOPIC),
                  {M.Persist, M.RejoinClients, M.SaveHistory, M.CanNotLeave});
      CreateLobby(conf.useStaff, staff, S.STAFF_LOBBY, Some(S.STAFF_TOPIC),
                  {M.Persist, M.AgentOnly, M.RejoinClients, M.SaveHistory, M.CanNotLeave});
      CreateLobby(conf.useGuest, guest, S.GUEST_LOBBY, None, {M.Persist, M.RejoinClients, M.CanNotLeave});
    }
  }

  ghost function Size(all: set<Uuid>): nat {
    |all|
  }

  lemma NobodyCounted(all: set<Uuid>, rest: set<Uuid>)
    requires all <= rest
    ensures Size(all - rest) == 0
  {
    assert all - rest == {};
  }

  lemma OneCounted(all: set<Uuid>, rest: set<Uuid>, k: Uuid)
    requires k in rest
    ensures Size(all - (rest - {k})) == Size(all - rest) + if k in all then 1 else 0
  {
    assert all - (rest - {k}) == if k in all then (all - rest) + {k} else all - rest;
  }
}
