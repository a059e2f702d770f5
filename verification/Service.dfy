/** The server's main loop on objects: new connections, connection errors and texts. Each method is one legal step of
    the machine, so all its invariants hold of the objects. */
module Service {
  import opened Basics
  import opened Uuids
  import opened Messages
  import opened ClientObject
  import opened ServerObject
  import opened Commands
  import D = Departure
  import S = Machine
  import M = Modes
  import T = Text

  // Connections

  /** The ban check and the registration of a new connection. */
  method Connect(server: Server, id: Uuid, ip: Ip, name: string, now: S.Time) returns (client: Option<Client>)
    requires server.Valid()
    modifies server.Parts()
    ensures server.Valid() && fresh(server.Parts() - old(server.Parts()))
    ensures client.Some? <==> !S.Banned(old(server.bans), ip)
    ensures client.Some? ==> Serves(server, client.value) && client.value.id == id
    ensures server.Abs() == S.Apply(old(server.Abs()), S.Connect(id, ip, name, now))
  {
    hide S.Banned;
    if S.Banned(server.bans, ip) {
      return None;
    }
    var c := new Client(id, ip, name, now);
    server.MailOnly();
    server.AddClient(c);
    client := Some(c);
  }

  // Connection errors

  /** One turn of the error loop: take the member out, then tell the others; only agents if the list is veiled. */
  method ErrorTurn(server: Server, id: Uuid, cid: Uuid, name: string, reason: string)
    requires server.Valid()
    modifies server.Parts()
    ensures server.Valid() && server.Parts() <= old(server.Parts()) && server.clients == old(server.clients)
    ensures server.Abs() == S.Tear(old(server.Abs()), id, cid, name, reason, true)
  {
    hide Deliver, S.Tear, S.AgentsOf;
    if cid in server.channels {
      var channel := server.channels[cid];
      ghost var before := channel.Record();
      D.TearParts(server.Abs(), id, cid, name, reason, true);
      GroupsWithout(before, id);
      channel.RemoveMember(id);
      var persist := channel.HasOption(M.Persist);
      if channel.HasOption(M.HiddenMemberList) || channel.HasOption(M.Invisible) {
        channel.SendToAgents(server.wire, Quit(cid, id, name, reason));
      } else {
        channel.SendToAllButOne(server.wire, id, Quit(cid, id, name, reason));
      }
      server.ChannelOnly(cid);
      D.WithoutTwice(before, id);
      if channel.CountMembers() == 0 && !persist {
        DropAgain(server.Abs().channels, old(server.Abs()).channels, cid, channel.Record());
        server.RemoveChannel(cid);
      }
    } else {
      NoTear(server.Abs(), id, cid, name, reason);
    }
  }

  lemma NoTear(s: S.State, id: Uuid, cid: Uuid, name: string, reason: string)
    requires cid !in s.channels
    ensures S.Tear(s, id, cid, name, reason, true) == s
  {
  }

  lemma DropAgain(after: map<Uuid, S.ChannelRec>, before: map<Uuid, S.ChannelRec>, cid: Uuid, ch: S.ChannelRec)
    requires after == before[cid := ch]
    ensures after - {cid} == before - {cid}
  {
  }

  lemma GroupsWithout(ch: S.ChannelRec, id: Uuid)
    ensures S.AgentsOf(S.Without(ch, id)) == S.AgentsOf(ch) - {id}
    ensures S.Without(ch, id).members.Keys - {id} == ch.members.Keys - {id}
  {
  }

  /** The error loop over a snapshot of the client's list. */
  method LeaveAll(server: Server, id: Uuid, list: set<Uuid>, name: string, reason: string)
    returns (ghost order: seq<Uuid>)
    requires server.Valid()
    modifies server.Parts()
    ensures server.Valid() && server.Parts() <= old(server.Parts()) && server.clients == old(server.clients)
    ensures Enumerates(order, list)
    ensures server.Abs() == S.TearAll(old(server.Abs()), id, order, name, reason, true)
  {
    hide S.Tear, Enumerates;
    order := [];
    var rest := list;
    NoTurns(list, rest);
    while rest != {}
      invariant server.Valid() && server.Parts() <= old(server.Parts()) && server.clients == old(server.clients)
      invariant rest <= list && Enumerates(order, list - rest)
      invariant server.Abs() == S.TearAll(old(server.Abs()), id, order, name, reason, true)
      decreases rest
    {
      var cid :| cid in rest;
      ErrorTurn(server, id, cid, name, reason);
      OneMoreTurn(order, cid, list, rest);
      rest := rest - {cid};
      order := order + [cid];
    }
    assert list - {} == list;
  }

  /** A client that was unregistered before has an empty list, so a late error changes nothing. */
  method HandleClientError(server: Server, client: Client, reason: string) returns (ghost order: seq<Uuid>)
    requires server.Valid()
    requires if client.id in server.clients then server.clients[client.id] == client else client.channels == {}
    modifies server.Parts()
    ensures server.Valid() && server.Parts() <= old(server.Parts())
    ensures Enumerates(order, old(client.channels))
    ensures server.Abs() == S.Apply(old(server.Abs()), S.ReadError(client.id, reason, order))
  {
    hide S.TearAll, Enumerates;
    order := LeaveAll(server, client.id, client.channels, client.name, reason);
    Nothing(server.Abs(), old(server.Abs()), order, client.id, client.name, reason);
    server.RemoveClient(client.id);
  }

  lemma {:induction false} TearAllFrame(s: S.State, t: S.State, id: Uuid, order: seq<Uuid>, name: string,
                                        reason: string,
                                        discreet: bool)
    requires t == s.(clients := t.clients)
    ensures S.TearAll(t, id, order, name, reason, discreet) ==
            S.TearAll(s, id, order, name, reason, discreet).(clients := t.clients)
  {
    if order != [] {
      var n := |order| - 1;
      TearAllFrame(s, t, id, order[..n], name, reason, discreet);
      TearFrame(S.TearAll(s, id, order[..n], name, reason, discreet),
                S.TearAll(t, id, order[..n], name, reason, discreet),
                id, order[n], name, reason, discreet);
    }
  }

  lemma TearFrame(s: S.State, t: S.State, id: Uuid, cid: Uuid, name: string, reason: string, discreet: bool)
    requires t == s.(clients := t.clients)
    ensures S.Tear(t, id, cid, name, reason, discreet) ==
            S.Tear(s, id, cid, name, reason, discreet).(clients := t.clients)
  {
    hide Deliver;
  }

  lemma MarkedDisconnect(s: S.State, t: S.State, id: Uuid, reason: string, order: seq<Uuid>)
    requires id in s.clients && t == s.(clients := s.clients[id := s.clients[id].(status := S.Closing)])
    ensures S.Disconnect(t, id, reason, order) == S.Disconnect(s, id, reason, order)
  {
    TearAllFrame(s, t, id, order, s.clients[id].name, reason, true);
    D.TearAllTorn(s, id, order, s.clients[id].name, reason, true);
    assert t.clients - {id} == s.clients - {id};
  }

  /** A connection is lost, or sends what is not a message: the client is marked as closing and torn down. */
  method CloseConnection(server: Server, client: Client, reason: string) returns (ghost order: seq<Uuid>)
    requires Serves(server, client)
    modifies server.Parts()
    ensures server.Valid() && server.Parts() <= old(server.Parts())
    ensures Enumerates(order, old(client.channels))
    ensures server.Abs() == S.Disconnect(old(server.Abs()), client.id, reason, order)
  {
    hide S.Disconnect, Enumerates;
    client.SetStatus(S.Closing);
    server.ClientOnly(client.id);
    ghost var t := server.Abs();
    order := HandleClientError(server, client, reason);
    MarkedDisconnect(old(server.Abs()), t, client.id, reason, order);
  }

  lemma Nothing(s: S.State, was: S.State, order: seq<Uuid>, id: Uuid, name: string, reason: string)
    ensures Enumerates(order, {}) ==> order == []
    ensures S.TearAll(was, id, [], name, reason, true) == was
    ensures id !in s.clients ==> S.DropClient(s, id) == s
  {
    if order != [] {
      assert order[0] in order;
    }
    assert id !in s.clients ==> s.clients - {id} == s.clients;
  }

  // Texts

  method DeliverText(server: Server, client: Client, cid: Uuid, text: string)
    requires Serves(server, client)
    modifies server.Parts()
    ensures server.Valid() && server.Parts() == old(server.Parts())
    ensures server.Abs() == S.Say(old(server.Abs()), client.id, cid, text)
  {
    hide Deliver, T.Escape, S.AgentsOf;
    if cid in server.channels {
      var channel := server.channels[cid];
      if channel.IsMember(client.id) {
        var m := Text(cid, client.id, client.name, T.Escape(text));
        if channel.HasOption(M.HiddenMessages) {
          channel.SendToAgents(server.wire, m);
        } else {
          channel.SendToAllButOne(server.wire, client.id, m);
        }
        server.MailOnly();
      }
    }
  }
}
