/** Joining: the join command, the lobbies of a login, and the login of agents. */
module Joining {
  import opened Basics
  import opened Uuids
  import opened Messages
  import opened ClientObject
  import opened ChannelObject
  import opened ServerObject
  import opened Commands
  import H = Handlers
  import S = Machine
  import M = Modes
  import T = Text

  ghost predicate Holds(server: Server, channel: Channel)
    reads server.Parts()
  {
    server.Valid() && channel.id in server.channels && server.channels[channel.id] == channel
  }

  lemma AdmitIs(s: S.State, id: Uuid, cid: Uuid)
    requires id in s.clients && cid in s.channels && s.clients[id].id == id
    ensures var c, ch := s.clients[id], s.channels[cid];
            S.Admit(s, id, cid) == s.(channels := s.channels[cid := ch.(members := ch.members[id := S.Clone(c)])],
                                      clients := s.clients[id := c.(channels := c.channels + {cid})],
                                      outbox := AnnouncedTo(s, ch, c))
  {
    hide Deliver, M.Labels;
  }

  /** Insert the client into the channel, and the channel into the client's list. */
  method AdmitClient(server: Server, client: Client, channel: Channel)
    requires Serves(server, client) && Holds(server, channel)
    modifies server.Parts()
    ensures Serves(server, client) && Holds(server, channel) && server.Parts() == old(server.Parts())
    ensures server.Abs() == S.Admit(old(server.Abs()), client.id, channel.id)
  {
    hide Deliver, AnnouncedTo, S.Admit;
    AdmitIs(server.Abs(), client.id, channel.id);
    channel.AddMember(server.wire, client, server.Abs());
    server.ChannelOnly(channel.id);
    label Inserted:
    client.AddChannel(channel.id);
    server.ClientOnly@Inserted(client.id);
  }

  /** What the newcomer is told; the lobbies never show a hidden member list, but do show the topic. */
  method WelcomeClient(server: Server, client: Client, channel: Channel, lobby: bool)
    requires Serves(server, client) && Holds(server, channel)
    modifies server.wire
    ensures Serves(server, client) && Holds(server, channel)
    ensures server.Abs() == S.Welcome(old(server.Abs()), client.id, channel.id, lobby)
  {
    hide Deliver, S.UsersOf;
    if !channel.HasOption(M.Invisible) || client.kind == S.Agent {
      server.wire.Send(client.id, Join(channel.id, client.id, client.name, MASKED));
      if !channel.HasOption(M.HiddenMemberList) || (!lobby && client.kind == S.Agent) {
        var users := channel.GetMembers();
        server.wire.Send(client.id, UserList(channel.id, users));
      }
      if lobby && channel.topic.Some? {
        server.wire.Send(client.id, Topic(channel.id, channel.topic.value));
      }
    }
    server.MailOnly();
  }

  method EnterChannel(server: Server, client: Client, channel: Channel, lobby: bool)
    requires Serves(server, client) && Holds(server, channel)
    modifies server.Parts()
    ensures Serves(server, client) && server.Parts() == old(server.Parts())
    ensures server.Abs() == S.Enter(old(server.Abs()), client.id, channel.id, lobby)
  {
    hide S.Admit, S.Welcome;
    AdmitClient(server, client, channel);
    WelcomeClient(server, client, channel, lobby);
  }

  lemma CreateIs(s: S.State, id: Uuid, name: string, newId: Uuid)
    requires id in s.clients && s.clients[id].id == id && newId !in s.channels
    ensures var c, ch := s.clients[id],
            S.ChannelRec(newId, name, Some(id), map[], None, {M.ClientInvites, M.SaveHistory});
            S.Create(s, id, name, newId) ==
              s.(clients := s.clients[id := c.(channels := c.channels + {newId})],
                 channels := s.channels[newId := ch.(members := ch.members[id := S.Clone(c)])],
                 outbox := Deliver(AnnouncedTo(s, ch, c), {id}, Join(newId, id, c.name, MASKED)),
                 issued := s.issued + {newId})
  {
    var ch := S.ChannelRec(newId, name, Some(id), map[], None, {M.ClientInvites, M.SaveHistory});
    var s1 := s.(channels := s.channels[newId := ch], issued := s.issued + {newId});
    var m := Join(newId, id, s.clients[id].name, MASKED);
    var after := ch.(members := ch.members[id := S.Clone(s.clients[id])]);
    assert S.Create(s, id, name, newId) == S.Cast(S.Admit(s1, id, newId), {id}, m) by {
      hide Deliver, M.Labels, S.BroadcastJoin;
    }
    assert s1.channels[newId := after] == s.channels[newId := after];
    hide Deliver, AnnouncedTo, S.Create, S.Admit, S.Clone, M.Labels, S.BroadcastJoin;
    SameAnnouncement(s, s1, ch, s.clients[id]);
    AdmitIs(s1, id, newId);
  }

  lemma SameAnnouncement(s: S.State, t: S.State, ch: S.ChannelRec, c: S.ClientRec)
    requires s.outbox == t.outbox
    ensures AnnouncedTo(s, ch, c) == AnnouncedTo(t, ch, c)
  {
    hide Deliver, M.Labels, S.BroadcastJoin;
    SameJoin(s, t, ch, c);
  }

  lemma SameJoin(s: S.State, t: S.State, ch: S.ChannelRec, c: S.ClientRec)
    requires s.outbox == t.outbox
    ensures S.BroadcastJoin(s, ch, c.id, c.name, c.ip).outbox == S.BroadcastJoin(t, ch, c.id, c.name, c.ip).outbox
  {
    hide Deliver, S.AgentsOf, S.NonAgentsOf, S.Veiled;
  }

  /** A new channel, owned by its creator, who is its first member before the channel is registered. */
  method CreateChannel(server: Server, client: Client, name: string, newId: Uuid)
    requires Serves(server, client) && newId !in server.channels
    modifies server.Parts()
    ensures server.Valid() && fresh(server.Parts() - old(server.Parts()))
    ensures server.Abs() == S.Create(old(server.Abs()), client.id, name, newId)
  {
    hide Deliver, AnnouncedTo, S.Create;
    CreateIs(server.Abs(), client.id, name, newId);
    hide S.Clone, Client.Record, Channel.Record;
    var creator, username := FirstMember(server, client, name, newId);
    Enlist(server, client, newId, username);
    server.AddChannel(creator);
  }

  /** The creator's own list names the new channel, and the creator is told so. */
  method Enlist(server: Server, client: Client, newId: Uuid, username: string)
    requires Serves(server, client)
    modifies client, server.wire
    ensures server.Valid() && server.Parts() == old(server.Parts()) && server.channels == old(server.channels)
    ensures var s, c := old(server.Abs()), old(client.Record());
            server.Abs() == s.(clients := s.clients[client.id := c.(channels := c.channels + {newId})],
                               outbox := Deliver(s.outbox, {client.id}, Join(newId, client.id, username, MASKED)))
  {
    hide Deliver;
    client.AddChannel(newId);
    server.wire.Send(client.id, Join(newId, client.id, username, MASKED));
    server.ClientOnly(client.id);
  }

  method FirstMember(server: Server, client: Client, name: string, newId: Uuid)
    returns (creator: Channel, username: string)
    requires Serves(server, client) && newId !in server.channels
    modifies server.wire
    ensures Serves(server, client) && fresh(creator) && creator.Valid() && creator.id == newId
            && username == client.name
    ensures var s, c := old(server.Abs()), client.Record();
            var ch := S.ChannelRec(newId, name, Some(client.id), map[], None, {M.ClientInvites, M.SaveHistory});
            && server.Abs() == s.(outbox := AnnouncedTo(s, ch, c))
            && creator.Record() == ch.(members := ch.members[client.id := S.Clone(c)])
  {
    hide Deliver, AnnouncedTo;
    ghost var s := server.Abs();
    creator := new Channel(newId, name, Some(client.id));
    creator.SetOptions({M.ClientInvites, M.SaveHistory});
    username := client.name;
    creator.AddMember(server.wire, client, s);
    server.MailOnly();
  }

  /** An empty name means joining by the id `target`. */
  method JoinChannel(server: Server, client: Client, name: string, target: Uuid, newId: Uuid)
    returns (ghost named: Option<Uuid>)
    requires Serves(server, client) && newId !in server.channels
    modifies server.Parts()
    ensures server.Valid() && fresh(server.Parts() - old(server.Parts()))
    ensures name != "" ==> S.LowerLookup(old(server.Abs()), name, named)
    ensures server.Abs() == S.JoinTo(old(server.Abs()), client.id, S.JoinText(name, target),
                                     S.JoinFound(old(server.Abs()), name, target, named), newId)
  {
    hide Deliver, S.Enter, S.Create, S.JoinTo, S.LowerLookup, T.ChannelName, LooksLikeV4, UuidText;
    var channel := if name == "" then UuidText(target) else name;
    var found := None;
    named := None;
    if name == "" {
      if target in server.channels {
        found := Some(target);
      }
    } else {
      found := server.ChannelNameToUuid(name);
      named := found;
    }
    JoinFoundOr(server, client, channel, found, newId);
  }

  /** Join the channel that was found, or create one. */
  method JoinFoundOr(server: Server, client: Client, name: string, found: Option<Uuid>, newId: Uuid)
    requires Serves(server, client) && newId !in server.channels && (found.Some? ==> found.value in server.channels)
    modifies server.Parts()
    ensures server.Valid() && fresh(server.Parts() - old(server.Parts()))
    ensures server.Abs() == S.JoinTo(old(server.Abs()), client.id, name, found, newId)
  {
    hide Deliver, S.Tell, S.Enter, S.Create, T.ChannelName, LooksLikeV4;
    if !client.HasOption(S.Admin) && !client.HasOption(S.JoinChannels) {
      Report(server, client, PermissionDenied);
      return;
    }
    if found.Some? {
      var channel := server.channels[found.value];
      if channel.IsMember(client.id) {
        Report(server, client, AlreadyMember);
        return;
      }
      if channel.HasOption(M.AgentOnly) && client.kind != S.Agent {
        Report(server, client, PermissionDenied);
        return;
      }
      if channel.HasOption(M.InviteOnly) && !client.HasOption(S.Admin) {
        Report(server, client, PermissionDenied);
        return;
      }
      EnterChannel(server, client, channel, false);
    } else {
      if !client.HasOption(S.CreateChannels) && client.kind != S.Agent {
        Report(server, client, PermissionDenied);
        return;
      }
      if LooksLikeV4(name) {
        Report(server, client, ChannelInvalid);
        return;
      }
      if !T.ChannelName(name) {
        Report(server, client, ChannelNameBad);
        return;
      }
      CreateChannel(server, client, name, newId);
    }
  }

  // Logins

  /** Enter a lobby, if the configuration uses it and a channel of that name exists. */
  method EnterLobby(server: Server, client: Client, use: bool, name: string) returns (ghost found: Option<Uuid>)
    requires Serves(server, client)
    modifies server.Parts()
    ensures Serves(server, client) && server.Parts() == old(server.Parts())
    ensures S.ExactLookup(old(server.Abs()), name, found)
    ensures server.Abs() == S.EnterLobby(old(server.Abs()), client.id, use, found)
  {
    hide S.Enter, S.ExactLookup;
    if use {
      var lobby := server.GetChannelByName(name);
      found := lobby;
      if lobby.Some? {
        EnterChannel(server, client, server.channels[lobby.value], true);
      }
    } else {
      found := AnyLookup(server.Abs(), name);
    }
  }

  lemma AnyLookup(s: S.State, name: string) returns (found: Option<Uuid>)
    ensures S.ExactLookup(s, name, found)
  {
    if c :| c in s.channels && s.channels[c].name == name {
      found := Some(c);
    } else {
      found := None;
    }
  }

  /** Both lobbies of a login. */
  method EnterLobbies(server: Server, client: Client, local: string, useLocal: bool)
    returns (ghost global: Option<Uuid>, ghost found: Option<Uuid>)
    requires Serves(server, client)
    modifies server.Parts()
    ensures Serves(server, client) && server.Parts() == old(server.Parts())
    ensures S.ExactLookup(old(server.Abs()), S.GLOBAL_LOBBY, global) && S.ExactLookup(old(server.Abs()), local, found)
    ensures server.Abs() == S.EnterLobby(S.EnterLobby(old(server.Abs()), client.id, server.conf.useGlobal, global),
                                         client.id, useLocal, found)
  {
    hide S.EnterLobby, S.ExactLookup;
    ghost var s := server.Abs();
    global := EnterLobby(server, client, server.conf.useGlobal, S.GLOBAL_LOBBY);
    ghost var u := server.Abs();
    found := EnterLobby(server, client, useLocal, local);
    SameNames(s, client.id, server.conf.useGlobal, global, local, found);
  }

  /** Entering a lobby does not rename channels. */
  lemma SameNames(s: S.State, id: Uuid, use: bool, lobby: Option<Uuid>, name: string, found: Option<Uuid>)
    requires id in s.clients && S.ExactLookup(S.EnterLobby(s, id, use, lobby), name, found)
    ensures S.ExactLookup(s, name, found)
  {
    hide S.Enter;
    if use && lobby.Some? && lobby.value in s.channels {
      H.EnterChannels(s, id, lobby.value, true);
      assert S.Enter(s, id, lobby.value, true).channels.Keys == s.channels.Keys;
      forall c | c in s.channels ensures S.Enter(s, id, lobby.value, true).channels[c].name == s.channels[c].name {
      }
    }
  }

  /** An accepted login: the checked name, the type and the permissions, and the answer to the client. */
  method SignIn(server: Server, client: Client, name: string, kind: S.ClientType, options: set<S.Power>)
    returns (ok: bool)
    requires Serves(server, client)
    modifies server.Parts()
    ensures Serves(server, client) && server.Parts() == old(server.Parts())
    ensures ok <==> T.ClientName(name)
    ensures server.Abs() == if ok then S.SignIn(old(server.Abs()), client.id, name, kind, options)
                            else S.Tell(old(server.Abs()), client.id, NameInvalid)
  {
    hide Deliver, T.ClientName;
    ok := client.SetName(name);
    if !ok {
      server.wire.Send(client.id, Trouble(NameInvalid));
      server.ClientOnly(client.id);
      assert server.Abs().clients == old(server.Abs()).clients;
      return;
    }
    client.SetStatus(S.Connected);
    client.SetType(kind);
    client.SetOptions(options);
    server.wire.Send(client.id, AuthOk(client.id, client.name));
    server.ClientOnly(client.id);
  }

  /** The common part of both logins, once the name was found to be free. */
  method Login(server: Server, client: Client, name: string, kind: S.ClientType, options: set<S.Power>, local: string,
               useLocal: bool)
    returns (ghost global: Option<Uuid>, ghost found: Option<Uuid>)
    requires Serves(server, client)
    modifies server.Parts()
    ensures server.Valid() && server.Parts() == old(server.Parts())
    ensures S.ExactLookup(old(server.Abs()), S.GLOBAL_LOBBY, global) && S.ExactLookup(old(server.Abs()), local, found)
    ensures server.Abs() ==
            if !T.ClientName(name) then S.Tell(old(server.Abs()), client.id, NameInvalid)
            else S.EnterLobby(S.EnterLobby(S.SignIn(old(server.Abs()), client.id, name, kind, options),
                                           client.id, server.conf.useGlobal, global), client.id, useLocal, found)
  {
    hide S.EnterLobby, S.ExactLookup, S.SignIn, T.ClientName;
    ghost var s := server.Abs();
    var ok := SignIn(server, client, name, kind, options);
    if ok {
      ghost var u := server.Abs();
      global, found := EnterLobbies(server, client, local, useLocal);
      SignInLookups(s, client.id, name, kind, options);
      H.LookupFrame(u, s, S.GLOBAL_LOBBY, global);
      H.LookupFrame(u, s, local, found);
    } else {
      global := AnyLookup(s, S.GLOBAL_LOBBY);
      found := AnyLookup(s, local);
    }
  }

  lemma SignInLookups(s: S.State, id: Uuid, name: string, kind: S.ClientType, options: set<S.Power>)
    requires id in s.clients
    ensures S.SignIn(s, id, name, kind, options).channels == s.channels
  {
  }

  /** Agents log in with a nickname; `permissions` is the answer of the credential check. */
  method AuthAgent(server: Server, client: Client, nickname: string, permissions: Option<set<S.Power>>)
    returns (ghost global: Option<Uuid>, ghost staff: Option<Uuid>)
    requires Serves(server, client)
    modifies server.Parts()
    ensures server.Valid() && server.Parts() <= old(server.Parts())
    ensures S.ExactLookup(old(server.Abs()), S.GLOBAL_LOBBY, global)
    ensures S.ExactLookup(old(server.Abs()), S.STAFF_LOBBY, staff)
    ensures server.Abs() == S.AuthAgent(old(server.Abs()), client.id, nickname, permissions, global, staff)
  {
    hide S.EnterLobby, S.ExactLookup, S.SignIn, S.Tell, T.ClientName, S.NameTaken, Deliver, Server.ClientTable,
      Server.ChannelTable;
    ghost var s := server.Abs();
    global := AnyLookup(s, S.GLOBAL_LOBBY);
    staff := AnyLookup(s, S.STAFF_LOBBY);
    if permissions.None? {
      RefuseLogin(server, client);
      return;
    }
    var taken := server.ClientNameToUuid(nickname);
    if taken.Some? {
      Report(server, client, NameInUse);
      return;
    }
    global, staff := Login(server, client, nickname, S.Agent, permissions.value, S.STAFF_LOBBY, server.conf.useStaff);
  }

  /** Wrong credentials end the connection. */
  method RefuseLogin(server: Server, client: Client)
    requires Serves(server, client)
    modifies server.Parts()
    ensures server.Valid() && server.Parts() <= old(server.Parts())
    ensures server.Abs() == S.DropClient(S.Tell(old(server.Abs()), client.id, InvalidAuth), client.id)
  {
    hide Deliver;
    server.wire.Send(client.id, Trouble(InvalidAuth));
    client.SetStatus(S.Closing);
    server.ClientOnly(client.id);
    PutThenDrop(server.Abs(), old(server.Abs()).clients, client.id, client.Record());
    server.RemoveClient(client.id);
  }

  /** Guests log in without credentials, under a name of their own or a generated one. */
  method AuthGuest(server: Server, client: Client, username: Option<string>, generated: string)
    returns (ghost global: Option<Uuid>, ghost guest: Option<Uuid>)
    requires Serves(server, client)
    modifies server.Parts()
    ensures server.Valid() && server.Parts() <= old(server.Parts())
    ensures S.ExactLookup(old(server.Abs()), S.GLOBAL_LOBBY, global)
    ensures S.ExactLookup(old(server.Abs()), S.GUEST_LOBBY, guest)
    ensures server.Abs() == S.AuthGuest(old(server.Abs()), client.id, S.GuestName(username, generated), global, guest)
  {
    hide S.EnterLobby, S.ExactLookup, S.SignIn, S.Tell, T.ClientName, S.NameTaken, Deliver, Server.ClientTable,
      Server.ChannelTable;
    ghost var s := server.Abs();
    global := AnyLookup(s, S.GLOBAL_LOBBY);
    guest := AnyLookup(s, S.GUEST_LOBBY);
    if !server.conf.allowGuests {
      Report(server, client, NotAvailable);
      return;
    }
    var actual := if username.Some? then "Guest-" + username.value else generated;
    var taken := server.ClientNameToUuid(actual);
    if taken.Some? {
      Report(server, client, NameInUse);
      return;
    }
    global, guest := Login(server, client, actual, S.Guest, server.conf.guestOptions, S.GUEST_LOBBY,
                           server.conf.useGuest);
  }
}
