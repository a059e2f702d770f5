/** Operations that undo each other, and exactly when the guarded ones take effect. */
module RoundTrips {
  import opened Basics
  import opened Uuids
  import opened Messages
  import opened Machine
  import opened Invariants
  import opened Handlers
  import opened Collection
  import M = Modes
  import T = Text

  lemma InAndOut(channels: Channels, cid: Uuid, m: Member)
    requires cid in channels && m.id !in channels[cid].members
    ensures var ch := channels[cid];
            Without(ch.(members := ch.members[m.id := m]), m.id) == ch
  {
    var ch := channels[cid];
    assert ch.members[m.id := m] - {m.id} == ch.members;
  }

  /** Parting after joining restores the member table of a channel that is worth keeping, and unregisters any other;
      the only trace is the entry in the client's own list, which parting never removes. */
  lemma PartUndoesJoin(s: State, actor: Uuid, cid: Uuid)
    requires actor in s.clients && s.clients[actor].id == actor && cid in s.channels
             && actor !in s.channels[cid].members
    ensures var t := Leave(Enter(s, actor, cid, false), actor, cid);
            && t.channels == (if Kept(s.channels[cid]) then s.channels else s.channels - {cid})
            && t.clients == s.clients[actor := s.clients[actor].(channels := s.clients[actor].channels + {cid})]
  {
    hide *;
    var u, ch := Enter(s, actor, cid, false), s.channels[cid];
    var joined := ch.(members := ch.members[actor := Clone(s.clients[actor])]);
    EnterChannels(s, actor, cid, false);
    EnterOthers(s, actor, cid, false);
    LeaveChannels(u, actor, cid);
    LeaveClients(u, actor, cid);
    CloneId(s.clients[actor]);
    InAndOut(s.channels, cid, Clone(s.clients[actor]));
    PutBack(s.channels, cid, joined);
  }

  lemma CloneId(c: ClientRec)
    ensures Clone(c).id == c.id
  {
  }

  lemma PutBack(channels: Channels, cid: Uuid, ch: ChannelRec)
    requires cid in channels
    ensures channels[cid := ch][cid := channels[cid]] == channels
    ensures channels[cid := ch] - {cid} == channels - {cid}
  {
  }

  lemma EnterOthers(s: State, id: Uuid, cid: Uuid, lobby: bool)
    requires id in s.clients && cid in s.channels
    ensures var t := Enter(s, id, cid, lobby);
            && t.clients == s.clients[id := s.clients[id].(channels := s.clients[id].channels + {cid})]
            && t.bans == s.bans && t.conf == s.conf && t.issued == s.issued
  {
    hide Deliver, M.Labels, BroadcastJoin;
    SentOnly(s, s.channels[cid], id, s.clients[id].name, s.clients[id].ip);
  }

  lemma SentOnly(s: State, ch: ChannelRec, who: Uuid, name: string, ip: Ip)
    ensures BroadcastJoin(s, ch, who, name, ip) == s.(outbox := BroadcastJoin(s, ch, who, name, ip).outbox)
  {
    hide Deliver;
  }

  lemma LeaveClients(s: State, actor: Uuid, cid: Uuid)
    requires actor in s.clients && cid in s.channels
    ensures Leave(s, actor, cid).clients == s.clients
  {
    hide Deliver;
  }

  /** A permitted kick after a join restores both registries completely, exactly if the user's own list held no stale
      entry of an earlier stay; that one goes too. */
  lemma KickUndoesJoin(s: State, actor: Uuid, cid: Uuid, user: Uuid, reason: string)
    requires actor in s.clients && cid in s.channels && Owns(s.channels[cid], s.clients[actor])
    requires user in s.clients && s.clients[user].id == user && user !in s.channels[cid].members
    ensures var t, c := KickFrom(Enter(s, user, cid, false), actor, cid, user, reason), s.clients[user];
            && t.channels == s.channels
            && t.clients == s.clients[user := c.(channels := c.channels - {cid})]
            && (t.clients == s.clients <==> cid !in c.channels)
  {
    var u, ch, c := Enter(s, user, cid, false), s.channels[cid], s.clients[user];
    hide Enter, KickFrom, Deliver, Without;
    EnterChannels(s, user, cid, false);
    EnterOthers(s, user, cid, false);
    assert u.channels[cid].owner == ch.owner && u.clients[actor].id == s.clients[actor].id;
    assert u.clients[actor].kind == s.clients[actor].kind;
    hide *;
    KickReady(u, actor, cid, user, ch, s.clients[actor]);
    KickParts(u, actor, cid, user, reason);
    CloneId(c);
    InAndOut(s.channels, cid, Clone(c));
    PutBack(s.channels, cid, ch.(members := ch.members[user := Clone(c)]));
    Unlisted(s.clients, user, cid);
  }

  lemma KickReady(u: State, actor: Uuid, cid: Uuid, user: Uuid, ch: ChannelRec, c: ClientRec)
    requires actor in u.clients && user in u.clients && cid in u.channels && user in u.channels[cid].members
             && Owns(ch, c)
    requires u.channels[cid].owner == ch.owner && u.clients[actor].id == c.id && u.clients[actor].kind == c.kind
    ensures MayKick(u, actor, cid, user)
  {
  }

  lemma Unlisted(clients: Clients, user: Uuid, cid: Uuid)
    requires user in clients
    ensures var c := clients[user];
            var after := clients[user := c.(channels := c.channels - {cid})];
            && after ==
               clients[user := c.(channels := c.channels + {cid})][user := c.(channels := c.channels + {cid} - {cid})]
            && (after == clients <==> cid !in c.channels)
  {
    var c := clients[user];
    assert c.channels + {cid} - {cid} == c.channels - {cid};
    assert clients[user := c.(channels := c.channels - {cid})][user].channels == c.channels - {cid};
    if cid !in c.channels {
      assert c.channels - {cid} == c.channels;
    }
  }

  /** A channel that its creator leaves at once is gone again. */
  lemma PartUndoesCreate(s: State, actor: Uuid, name: string, newId: Uuid)
    requires actor in s.clients && newId !in s.channels
    ensures Leave(Create(s, actor, name, newId), actor, newId).channels == s.channels
  {
    var u := Create(s, actor, name, newId);
    var ch := ChannelRec(newId, name, Some(actor), map[actor := Clone(s.clients[actor])], None,
                         {M.ClientInvites, M.SaveHistory});
    CreatedClients(s, actor, name, newId);
    assert !Kept(Without(ch, actor)) by {
      assert Without(ch, actor).members.Keys == {};
    }
    assert s.channels[newId := ch] - {newId} == s.channels;
    hide *;
    CreatedChannels(s, actor, name, newId);
    LeaveChannels(u, actor, newId);
  }

  lemma CreatedClients(s: State, actor: Uuid, name: string, newId: Uuid)
    requires actor in s.clients
    ensures actor in Create(s, actor, name, newId).clients
  {
  }

  /** Exactly when a topic is accepted, by the length of the raw text, and what is stored then. */
  lemma TopicMeaning(s: State, actor: Uuid, cid: Uuid, topic: string)
    requires actor in s.clients && cid in s.channels
    ensures var t, ch := SetTopic(s, actor, cid, topic), s.channels[cid];
            if Owns(ch, s.clients[actor]) && |topic| + 3 * T.Brackets(topic) <= s.conf.maxTopic
            then t.channels == s.channels[cid := ch.(topic := if topic == "" then None else Some(T.EscapeOnce(topic)))]
            else t.channels == s.channels
  {
    T.EscapeMeaning(topic);
    hide T.Escape, Deliver;
    if topic == "" {
      assert |T.Escape(topic)| == 0;
    }
  }

  /** A topic that was shown escaped can be set again without change. */
  lemma TopicAgain(s: State, actor: Uuid, cid: Uuid, topic: string)
    requires actor in s.clients && cid in s.channels && Owns(s.channels[cid], s.clients[actor])
    requires s.channels[cid].topic == Some(T.Escape(topic)) && topic != ""
    ensures SetTopic(s, actor, cid, T.Escape(topic)).channels == s.channels
  {
    T.EscapeIdempotent(topic);
    T.EscapeMeaning(topic);
    hide T.Escape, Deliver;
    assert s.channels[cid := s.channels[cid]] == s.channels;
  }

  /** Exactly when a guest gets in, and where. */
  lemma GuestLoginMeaning(s: State, id: Uuid, name: string, global: Option<Uuid>, local: Option<Uuid>, c: Uuid)
    requires Inv(s) && id in s.clients && s.clients[id].kind == Unknown
    requires ExactLookup(s, GLOBAL_LOBBY, global) && ExactLookup(s, GUEST_LOBBY, local)
    ensures var t := AuthGuest(s, id, name, global, local);
            var ok := s.conf.allowGuests && !NameTaken(s, name) && T.ClientName(name);
            && id in t.clients
            && (if ok then
                  && t.clients[id].kind == Guest && t.clients[id].name == name
                  && t.clients[id].options == s.conf.guestOptions
                else t.clients == s.clients && t.channels == s.channels)
            && (c in t.channels && id in t.channels[c].members <==>
                  ok && ((s.conf.useGlobal && global == Some(c)) || (s.conf.useGuest && local == Some(c))))
  {
    UnknownIsNowhere(s, id);
    hide Inv, T.ClientName, NameTaken, Enter, Deliver;
    if s.conf.allowGuests && !NameTaken(s, name) && T.ClientName(name) {
      LobbiesEntered(s, id, name, Guest, s.conf.guestOptions, s.conf.useGlobal, global, s.conf.useGuest, local,
                     GUEST_LOBBY, c);
    }
  }

  /** The same for agents; wrong credentials end the connection. */
  lemma AgentLoginMeaning(s: State, id: Uuid, name: string, permissions: Option<set<Power>>,
                          global: Option<Uuid>, local: Option<Uuid>, c: Uuid)
    requires Inv(s) && id in s.clients && s.clients[id].kind == Unknown
    requires ExactLookup(s, GLOBAL_LOBBY, global) && ExactLookup(s, STAFF_LOBBY, local)
    ensures var t := AuthAgent(s, id, name, permissions, global, local);
            var ok := permissions.Some? && !NameTaken(s, name) && T.ClientName(name);
            && (id in t.clients <==> permissions.Some?)
            && (ok ==>
                  && t.clients[id].kind == Agent && t.clients[id].name == name
                  && t.clients[id].options == permissions.value)
            && (!ok ==> t.channels == s.channels && t.clients - {id} == s.clients - {id})
            && (c in t.channels && id in t.channels[c].members <==>
                  ok && ((s.conf.useGlobal && global == Some(c)) || (s.conf.useStaff && local == Some(c))))
  {
    UnknownIsNowhere(s, id);
    hide Inv, T.ClientName, NameTaken, Enter, Deliver;
    if permissions.Some? && !NameTaken(s, name) && T.ClientName(name) {
      LobbiesEntered(s, id, name, Agent, permissions.value, s.conf.useGlobal, global, s.conf.useStaff, local,
                     STAFF_LOBBY, c);
    } else if permissions.None? {
      assert s.clients - {id} - {id} == s.clients - {id};
    }
  }

  lemma EnteredOne(s: State, id: Uuid, use: bool, lobby: Option<Uuid>, c: Uuid)
    requires id in s.clients && s.clients[id].id == id
    ensures var t := EnterLobby(s, id, use, lobby);
            && t.channels.Keys == s.channels.Keys && id in t.clients
            && t.clients[id] == s.clients[id].(channels := t.clients[id].channels)
            && (c in t.channels && id in t.channels[c].members <==>
                  c in s.channels && (id in s.channels[c].members || (use && lobby == Some(c))))
  {
    hide Enter;
    if use && lobby.Some? && lobby.value in s.channels {
      EnterChannels(s, id, lobby.value, true);
    }
  }

  lemma LobbiesEntered(s: State, id: Uuid, name: string, kind: ClientType, options: set<Power>,
                       g: bool, global: Option<Uuid>, l: bool, local: Option<Uuid>, lobby: string, c: Uuid)
    requires id in s.clients && s.clients[id].id == id && forall x :: x in s.channels ==> id !in s.channels[x].members
    requires ExactLookup(s, GLOBAL_LOBBY, global) && ExactLookup(s, lobby, local)
    ensures var t := EnterLobby(EnterLobby(SignIn(s, id, name, kind, options), id, g, global), id, l, local);
            && id in t.clients && t.clients[id].kind == kind && t.clients[id].name == name
            && t.clients[id].options == options
            && (c in t.channels && id in t.channels[c].members <==> (g && global == Some(c)) || (l && local == Some(c)))
  {
    var u := SignIn(s, id, name, kind, options);
    assert u.channels == s.channels && u.clients[id].id == id && u.clients[id].kind == kind
      && u.clients[id].name == name
           && u.clients[id].options == options;
    hide EnterLobby, SignIn;
    EnteredOne(u, id, g, global, c);
    EnteredOne(EnterLobby(u, id, g, global), id, l, local, c);
  }
}
