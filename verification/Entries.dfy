/** What joins and logins do to the registries and to every outbox, told in terms of the state before them. */
module Entries {
  import opened Basics
  import opened Uuids
  import opened Messages
  import opened Machine
  import opened Invariants
  import opened SmallSteps
  import opened Handlers
  import opened Steps
  import opened Effects
  import M = Modes
  import T = Text

  /** The messages to `r` when a client enters a channel. The newcomer is shown the modes, then its own join, then the
      members, then (in a lobby) the topic; the members are told who came, with the address only if `r` is an agent, and
      in a channel with hidden members, or an invisible one, only the agents. A client that may be unseen is not
      announced. */
  function EntryMail(ch: ChannelRec, who: ClientRec, lobby: bool, r: Uuid, agent: bool): seq<Msg> {
    if r == who.id then OwnModes(ch, who) + OwnWelcome(ch, who, lobby, NamesWith(ch, who))
    else if r in ch.members && Unseen !in who.options
            && (agent || (M.HiddenMemberList !in ch.options && M.Invisible !in ch.options)) then
      [Join(ch.id, who.id, who.name, if agent then who.ip else MASKED)]
    else []
  }

  function OwnModes(ch: ChannelRec, who: ClientRec): seq<Msg> {
    if Unseen in who.options then [] else [ChannelModes(ch.id, M.Labels(ch.options))]
  }

  function OwnWelcome(ch: ChannelRec, who: ClientRec, lobby: bool, names: map<Uuid, string>): seq<Msg> {
    if M.Invisible in ch.options && who.kind != Agent then []
    else
      [Join(ch.id, who.id, who.name, MASKED)]
      + (if M.HiddenMemberList in ch.options && (who.kind != Agent || lobby) then [] else [UserList(ch.id, names)])
      + (if lobby && ch.topic.Some? then [Topic(ch.id, ch.topic.value)] else [])
  }

  function NamesWith(ch: ChannelRec, who: ClientRec): map<Uuid, string> {
    map k | k in ch.members.Keys + {who.id} :: if k == who.id then who.name else ch.members[k].name
  }

  /** The channel with the newcomer in its table. */
  function With(ch: ChannelRec, who: ClientRec): ChannelRec {
    ch.(members := ch.members[who.id := Member(who.id, who.name, who.kind, who.options, who.ip)])
  }

  /** The registry once the channel is on the client's own list. */
  function Joined(clients: Clients, id: Uuid, c: Uuid): Clients
    requires id in clients
  {
    clients[id := clients[id].(channels := clients[id].channels + {c})]
  }

  lemma JoinBoxes(s: State, ch: ChannelRec, who: Uuid, name: string, ip: Ip, r: Uuid)
    ensures BroadcastJoin(s, ch, who, name, ip) == s.(outbox := BroadcastJoin(s, ch, who, name, ip).outbox)
    ensures Box(BroadcastJoin(s, ch, who, name, ip).outbox, r) == Box(s.outbox, r) +
            if r in ch.members && (ch.members[r].kind == Agent
                                   || (M.HiddenMemberList !in ch.options && M.Invisible !in ch.options))
            then [Join(ch.id, who, name, if ch.members[r].kind == Agent then ip else MASKED)] else []
  {
  }

  lemma BoxOfCastIf(s: State, cond: bool, id: Uuid, m: Msg, r: Uuid)
    ensures var t := CastIf(s, cond, {id}, m);
            t == s.(outbox := t.outbox) && Box(t.outbox, r) == Box(s.outbox, r) + if cond && r == id then [m] else []
  {
  }

  lemma AnnounceBoxes(s: State, id: Uuid, cid: Uuid, r: Uuid)
    requires id in s.clients && cid in s.channels && id !in s.channels[cid].members && s.clients[id].id == id
    requires s.channels[cid].id == cid
    ensures var who, ch := s.clients[id], s.channels[cid];
            Box(Announce(s, id, cid).outbox, r) == Box(s.outbox, r) +
              if r == id then OwnModes(ch, who)
              else if r in ch.members && Unseen !in who.options
                      && (ch.members[r].kind == Agent
                          || (M.HiddenMemberList !in ch.options && M.Invisible !in ch.options))
              then [Join(cid, id, who.name, if ch.members[r].kind == Agent then who.ip else MASKED)] else []
  {
    var who, ch := s.clients[id], s.channels[cid];
    var u := BroadcastJoin(s, ch, id, who.name, who.ip);
    var m := ChannelModes(cid, M.Labels(ch.options));
    assert Announce(s, id, cid) == if Unseen in who.options then s else CastIf(u, true, {id}, m);
    assert OwnModes(ch, who) == if Unseen in who.options then [] else [m];
    hide *;
    JoinBoxes(s, ch, id, who.name, who.ip, r);
    BoxOfCastIf(u, true, id, m, r);
  }

  lemma WelcomeBoxes(s: State, id: Uuid, cid: Uuid, lobby: bool, r: Uuid)
    requires id in s.clients && cid in s.channels && s.clients[id].id == id && s.channels[cid].id == cid
    ensures var who, ch := s.clients[id], s.channels[cid];
            Box(Welcome(s, id, cid, lobby).outbox, r) == Box(s.outbox, r) +
              if r == id then OwnWelcome(ch, who, lobby, UsersOf(ch)) else []
  {
    var who, ch := s.clients[id], s.channels[cid];
    var visible := M.Invisible !in ch.options || who.kind == Agent;
    var listed := M.HiddenMemberList !in ch.options || (who.kind == Agent && !lobby);
    var m1, m2, m3 := Join(cid, id, who.name, MASKED), UserList(cid, UsersOf(ch)), Topic(cid, ch.topic.UnwrapOr(""));
    var s1 := CastIf(s, visible, {id}, m1);
    var s2 := CastIf(s1, visible && listed, {id}, m2);
    var topical := lobby && ch.topic.Some?;
    assert Welcome(s, id, cid, lobby) == CastIf(s2, visible && topical, {id}, m3);
    assert OwnWelcome(ch, who, lobby, UsersOf(ch)) ==
      if visible then [m1] + (if listed then [m2] else []) + (if topical then [m3] else []) else [];
    hide *;
    BoxOfCastIf(s, visible, id, m1, r);
    BoxOfCastIf(s1, visible && listed, id, m2, r);
    BoxOfCastIf(s2, visible && topical, id, m3, r);
    Regroup(Box(s.outbox, r), [m1], if listed then [m2] else [], if topical then [m3] else []);
  }

  /** Entering a channel: the tables, and everybody's messages. */
  lemma EnterEffect(s: State, id: Uuid, cid: Uuid, lobby: bool, r: Uuid)
    requires Inv(s) && id in s.clients && cid in s.channels && id !in s.channels[cid].members
    ensures var t, who, ch := Enter(s, id, cid, lobby), s.clients[id], s.channels[cid];
            && Becomes(s, t, Joined(s.clients, id, cid), s.channels[cid := With(ch, who)])
            && Box(t.outbox, r) == Box(s.outbox, r) + EntryMail(ch, who, lobby, r, IsAgent(s.clients, r))
  {
    hide *;
    var who, ch, u := s.clients[id], s.channels[cid], Announce(s, id, cid);
    var v := Insert(u, id, cid);
    IdIssued(s, id);
    ChannelIdIs(s, cid);
    MemberIsAgent(s, cid, r);
    EnterIs(s, id, cid, lobby);
    EnterRegistries(s, id, cid, lobby);
    AnnounceBoxes(s, id, cid, r);
    InsertedState(u, id, cid);
    WelcomeBoxes(v, id, cid, lobby, r);
    EntryMailIs(ch, who, lobby, r, IsAgent(s.clients, r), v.clients[id]);
    Regroup(Box(s.outbox, r), OwnModes(ch, who), OwnWelcome(ch, who, lobby, NamesWith(ch, who)), []);
  }

  lemma EnterIs(s: State, id: Uuid, cid: Uuid, lobby: bool)
    requires id in s.clients && cid in s.channels
    ensures Enter(s, id, cid, lobby) == Welcome(Insert(Announce(s, id, cid), id, cid), id, cid, lobby)
  {
    hide Announce, Welcome, Insert;
  }

  lemma ChannelIdIs(s: State, cid: Uuid)
    requires Inv(s) && cid in s.channels
    ensures s.channels[cid].id == cid
  {
    OpenInv(s);
  }

  lemma EntryMailIs(ch: ChannelRec, who: ClientRec, lobby: bool, r: Uuid, agent: bool, after: ClientRec)
    requires after == who.(channels := after.channels)
    ensures EntryMail(ch, who, lobby, r, agent) ==
            if r == who.id then OwnModes(ch, who) + OwnWelcome(ch, who, lobby, NamesWith(ch, who))
            else if r in ch.members && Unseen !in who.options
                    && (agent || (M.HiddenMemberList !in ch.options && M.Invisible !in ch.options))
            then [Join(ch.id, who.id, who.name, if agent then who.ip else MASKED)]
            else []
    ensures OwnWelcome(With(ch, who), after, lobby, NamesWith(ch, who)) ==
            OwnWelcome(ch, who, lobby, NamesWith(ch, who))
  {
  }

  lemma EnterRegistries(s: State, id: Uuid, cid: Uuid, lobby: bool)
    requires id in s.clients && cid in s.channels && s.clients[id].id == id
    ensures var t, who, ch := Enter(s, id, cid, lobby), s.clients[id], s.channels[cid];
            Becomes(s, t, Joined(s.clients, id, cid), s.channels[cid := With(ch, who)])
  {
    var v := Insert(Announce(s, id, cid), id, cid);
    EnterIs(s, id, cid, lobby);
    hide Announce, Enter, Deliver, UsersOf, M.Labels;
  }

  lemma InsertedState(s: State, id: Uuid, cid: Uuid)
    requires id in s.clients && cid in s.channels && s.clients[id].id == id
    ensures var v, who, ch := Insert(s, id, cid), s.clients[id], s.channels[cid];
            && v.outbox == s.outbox
            && id in v.clients && v.clients[id] == who.(channels := who.channels + {cid})
            && cid in v.channels && v.channels[cid] == With(ch, who)
            && With(ch, who).id == ch.id && With(ch, who).options == ch.options && With(ch, who).topic == ch.topic
            && UsersOf(With(ch, who)) == NamesWith(ch, who)
  {
  }

  // The join command

  /** A join: by an empty name the channel with the given id is meant, else one with the given name up to case. Whoever
      has neither Admin nor JoinChannels is refused. A channel that exists can be entered by those who are not inside
      yet, by agents only if it is marked so, and by Admins only if it is marked Invite Only; one that does not exist is
      created. */
  lemma JoinEffect(s: State, id: Uuid, x: Chance, name: string, target: Uuid, r: Uuid)
    requires Inv(s) && Sender(s, id) && Legal(s, Issue(id, JoinChannel(name, target), x))
    ensures var t, options := Apply(s, Issue(id, JoinChannel(name, target), x)), s.clients[id].options;
            var found := if name != "" then x.named else if target in s.channels then Some(target) else None;
            var text := if name == "" then UuidText(target) else name;
            var clients := Stamped(s, id, x.now);
            if Admin !in options && JoinChannels !in options then Refused(s, t, id, x.now, PermissionDenied)
            else if found.Some? then
              && found.value in s.channels
              && (name != "" ==> T.Lower(s.channels[found.value].name) == T.Lower(name))
              && var ch := s.channels[found.value];
                 if id in ch.members then Refused(s, t, id, x.now, AlreadyMember)
                 else if M.AgentOnly in ch.options && s.clients[id].kind != Agent then
                   Refused(s, t, id, x.now, PermissionDenied)
                 else if M.InviteOnly in ch.options && Admin !in options then Refused(s, t, id, x.now, PermissionDenied)
                 else
                   && Becomes(s, t, Joined(clients, id, found.value),
                              s.channels[found.value := With(ch, s.clients[id])])
                   && Box(t.outbox, r) ==
                      Box(s.outbox, r) + EntryMail(ch, s.clients[id], false, r, IsAgent(s.clients, r))
            else if CreateChannels !in options && s.clients[id].kind != Agent then
              Refused(s, t, id, x.now, PermissionDenied)
            else if LooksLikeV4(text) then Refused(s, t, id, x.now, ChannelInvalid)
            else if !T.ChannelName(text) then Refused(s, t, id, x.now, ChannelNameBad)
            else Created(s, t, id, x.now, text, x.newId, r)
  {
    hide *;
    SenderIs(s, id);
    var u, cmd := Touch(s, id, x.now), JoinChannel(name, target);
    var found := if name != "" then x.named else if target in s.channels then Some(target) else None;
    TouchedSame(s, id, cmd, x);
    HandleIs(u, id, cmd, x);
    TellRefuses(s, id, x.now);
    Lookup(s, u, id, name, target, x);
    JoinIs(s, u, id, if name == "" then UuidText(target) else name, found, x.newId);
    TouchKeeps(s, id, x.now);
    if found.Some? && id !in s.channels[found.value].members {
      EnterEffect(u, id, found.value, false, r);
      SameEntryMail(s, id, x.now, found.value, false, r);
    }
    if found.None? {
      CreateEffect(s, id, x.now, if name == "" then UuidText(target) else name, x.newId, r);
    }
  }

  /** The new channel belongs to its creator, who is its only member. */
  ghost predicate Created(s: State, t: State, id: Uuid, now: Time, name: string, newId: Uuid, r: Uuid)
    requires id in s.clients
  {
    var who := s.clients[id];
    var ch := ChannelRec(newId, name, Some(id), map[], None, {M.ClientInvites, M.SaveHistory});
    && newId !in s.channels
    && t == State(s.conf, Joined(Stamped(s, id, now), id, newId), s.channels[newId := With(ch, who)], s.bans, t.outbox,
                  s.issued + {newId})
    && Box(t.outbox, r) ==
       Box(s.outbox, r) + if r == id then OwnModes(ch, who) + [Join(newId, id, who.name, MASKED)] else []
  }

  lemma Lookup(s: State, u: State, id: Uuid, name: string, target: Uuid, x: Chance)
    requires id in s.clients && Legal(s, Issue(id, JoinChannel(name, target), x)) && u.channels == s.channels
    ensures var found := if name != "" then x.named else if target in s.channels then Some(target) else None;
            && JoinFound(u, name, target, x.named) == found
            && (found.Some? ==> found.value in s.channels)
            && (found.Some? && name != "" ==> T.Lower(s.channels[found.value].name) == T.Lower(name))
    ensures JoinText(name, target) == if name == "" then UuidText(target) else name
    ensures UnusedId(s, x.newId)
  {
    hide T.Lower, UuidText, Enumerates;
  }

  lemma JoinIs(s: State, u: State, id: Uuid, text: string, found: Option<Uuid>, newId: Uuid)
    requires id in s.clients && id in u.clients && u.channels == s.channels
    requires u.clients[id] == s.clients[id].(lastAction := u.clients[id].lastAction, lastPing := u.clients[id].lastPing)
    requires found.Some? ==> found.value in s.channels
    ensures var options := s.clients[id].options;
            JoinTo(u, id, text, found, newId) ==
              if Admin !in options && JoinChannels !in options then Tell(u, id, PermissionDenied)
              else if found.Some? then
                var ch := s.channels[found.value];
                if id in ch.members then Tell(u, id, AlreadyMember)
                else if M.AgentOnly in ch.options && s.clients[id].kind != Agent then Tell(u, id, PermissionDenied)
                else if M.InviteOnly in ch.options && Admin !in options then Tell(u, id, PermissionDenied)
                else Enter(u, id, found.value, false)
              else if CreateChannels !in options && s.clients[id].kind != Agent then Tell(u, id, PermissionDenied)
              else if LooksLikeV4(text) then Tell(u, id, ChannelInvalid)
              else if !T.ChannelName(text) then Tell(u, id, ChannelNameBad)
              else Create(u, id, text, newId)
  {
    hide Tell, Enter, Create, LooksLikeV4, T.ChannelName;
  }

  /** The timestamps do not matter for what is said about a newcomer. */
  lemma SameEntryMail(s: State, id: Uuid, now: Time, c: Uuid, lobby: bool, r: Uuid)
    requires id in s.clients && c in s.channels
    ensures var u, ch, t := Touch(s, id, now), s.channels[c], Enter(Touch(s, id, now), id, c, lobby);
            && u.channels == s.channels && u.outbox == s.outbox && id in u.clients
            && EntryMail(ch, u.clients[id], lobby, r, IsAgent(u.clients, r)) ==
               EntryMail(ch, s.clients[id], lobby, r, IsAgent(s.clients, r))
            && With(ch, u.clients[id]) == With(ch, s.clients[id])
            && (Becomes(u, t, Joined(u.clients, id, c), s.channels[c := With(ch, s.clients[id])]) ==>
                Becomes(s, t, Joined(Stamped(s, id, now), id, c), s.channels[c := With(ch, s.clients[id])]))
  {
    hide Enter, M.Labels;
  }

  lemma CreateEffect(s: State, id: Uuid, now: Time, name: string, newId: Uuid, r: Uuid)
    requires Inv(s) && id in s.clients && UnusedId(s, newId)
    ensures Created(s, Create(Touch(s, id, now), id, name, newId), id, now, name, newId, r)
  {
    hide *;
    var u, who := Touch(s, id, now), s.clients[id];
    var ch := ChannelRec(newId, name, Some(id), map[], None, {M.ClientInvites, M.SaveHistory});
    var u1 := u.(channels := u.channels[newId := ch], issued := u.issued + {newId});
    TouchParts(s, id, now);
    IdIssued(s, id);
    NewChannelId(s, newId);
    CreatedRegistries(s, id, now, name, newId);
    AnnounceBoxes(u1, id, newId, r);
    CreatedBox(u, id, name, newId, r);
    SameOwnModes(ch, who, u.clients[id]);
    Regroup(Box(s.outbox, r), OwnModes(ch, who), [Join(newId, id, who.name, MASKED)], []);
    CreatedIs(s, Create(u, id, name, newId), id, now, name, newId, r);
  }

  lemma CreatedIs(s: State, t: State, id: Uuid, now: Time, name: string, newId: Uuid, r: Uuid)
    requires id in s.clients
    ensures var who := s.clients[id];
            var ch := ChannelRec(newId, name, Some(id), map[], None, {M.ClientInvites, M.SaveHistory});
            Created(s, t, id, now, name, newId, r) <==>
              && newId !in s.channels
              && t == State(s.conf, Joined(Stamped(s, id, now), id, newId), s.channels[newId := With(ch, who)], s.bans,
                            t.outbox, s.issued + {newId})
              && Box(t.outbox, r) ==
                 Box(s.outbox, r) + if r == id then OwnModes(ch, who) + [Join(newId, id, who.name, MASKED)] else []
  {
    hide M.Labels;
  }

  lemma TouchParts(s: State, id: Uuid, now: Time)
    requires id in s.clients
    ensures var u := Touch(s, id, now);
            && id in u.clients && u.clients[id] == s.clients[id].(lastAction := now, lastPing := now)
            && u.channels == s.channels && u.outbox == s.outbox && u.issued == s.issued
  {
  }

  lemma SameOwnModes(ch: ChannelRec, who: ClientRec, after: ClientRec)
    requires after.options == who.options
    ensures OwnModes(ch, after) == OwnModes(ch, who)
  {
  }

  lemma CreatedBox(s: State, id: Uuid, name: string, newId: Uuid, r: Uuid)
    requires id in s.clients && s.clients[id].id == id
    ensures var ch := ChannelRec(newId, name, Some(id), map[], None, {M.ClientInvites, M.SaveHistory});
            var s1 := s.(channels := s.channels[newId := ch], issued := s.issued + {newId});
            var m := Join(newId, id, s.clients[id].name, MASKED);
            Box(Create(s, id, name, newId).outbox, r) ==
              Box(Announce(s1, id, newId).outbox, r) + if r == id then [m] else []
  {
    hide Announce, M.Labels, Admit;
  }

  lemma CreatedRegistries(s: State, id: Uuid, now: Time, name: string, newId: Uuid)
    requires id in s.clients && s.clients[id].id == id
    ensures var t := Create(Touch(s, id, now), id, name, newId);
            var ch := ChannelRec(newId, name, Some(id), map[], None, {M.ClientInvites, M.SaveHistory});
            t == State(s.conf, Joined(Stamped(s, id, now), id, newId), s.channels[newId := With(ch, s.clients[id])],
                       s.bans, t.outbox, s.issued + {newId})
  {
    hide M.Labels, Deliver, Announce;
  }

  /** Who gets into a channel that exists and has not got them yet: nobody without Admin or JoinChannels, only agents
      into an agent-only channel, and only Admins into one by invitation. */
  lemma JoinMeaning(s: State, id: Uuid, x: Chance, name: string, target: Uuid, c: Uuid)
    requires Inv(s) && Sender(s, id) && Legal(s, Issue(id, JoinChannel(name, target), x))
    requires c in s.channels && id !in s.channels[c].members && (if name == "" then target == c else x.named == Some(c))
    ensures var t, who, modes :=
              Apply(s, Issue(id, JoinChannel(name, target), x)), s.clients[id], s.channels[c].options;
            && c in t.channels && id in t.clients
            && (id in t.channels[c].members <==>
                  && (Admin in who.options || JoinChannels in who.options)
                  && (M.AgentOnly in modes ==> who.kind == Agent)
                  && (M.InviteOnly in modes ==> Admin in who.options))
            && (id in t.channels[c].members <==> c in t.clients[id].channels && t.channels != s.channels)
            && (id !in t.channels[c].members ==> Refused(s, t, id, x.now, PermissionDenied))
  {
    hide *;
    SenderIs(s, id);
    JoinEffect(s, id, x, name, target, id);
    IdIssued(s, id);
    var t := Apply(s, Issue(id, JoinChannel(name, target), x));
    RefusedParts(s, t, id, x.now, PermissionDenied);
    JoinedParts(s, t, id, x.now, c);
  }

  lemma JoinedParts(s: State, t: State, id: Uuid, now: Time, c: Uuid)
    requires id in s.clients && s.clients[id].id == id && c in s.channels && id !in s.channels[c].members
    ensures Becomes(s, t, Joined(Stamped(s, id, now), id, c), s.channels[c := With(s.channels[c], s.clients[id])]) ==>
              && id in t.clients && c in t.clients[id].channels && c in t.channels && id in t.channels[c].members
              && t.channels != s.channels
  {
  }

  // Logins

  /** A lobby is entered if it is configured and there is one: its table, the client's list, and the messages. */
  function Welcomed(channels: Channels, use: bool, lobby: Option<Uuid>, who: ClientRec): Channels {
    if use && lobby.Some? && lobby.value in channels then
      channels[lobby.value := With(channels[lobby.value], who)]
    else channels
  }

  function Noted(clients: Clients, id: Uuid, use: bool, lobby: Option<Uuid>): Clients
    requires id in clients
  {
    if use && lobby.Some? then Joined(clients, id, lobby.value) else clients
  }

  function LobbyMail(s: State, use: bool, lobby: Option<Uuid>, who: ClientRec, r: Uuid): seq<Msg> {
    if use && lobby.Some? && lobby.value in s.channels then
      EntryMail(s.channels[lobby.value], who, true, r, IsAgent(s.clients, r))
    else []
  }

  lemma LobbyEffect(s: State, id: Uuid, use: bool, lobby: Option<Uuid>, r: Uuid)
    requires Inv(s) && id in s.clients
    requires lobby.Some? ==> lobby.value in s.channels && id !in s.channels[lobby.value].members
    ensures var t, who := EnterLobby(s, id, use, lobby), s.clients[id];
            && Becomes(s, t, Noted(s.clients, id, use, lobby), Welcomed(s.channels, use, lobby, who))
            && Box(t.outbox, r) == Box(s.outbox, r) + LobbyMail(s, use, lobby, who, r)
  {
    hide Inv, Enter, EntryMail, With, Joined, IsAgent;
    if use && lobby.Some? {
      EnterEffect(s, id, lobby.value, true, r);
    }
  }

  /** A client was logged in: its new record, the two lobbies, and everybody's messages. The client is told its id and
      name before it enters the lobbies. */
  ghost predicate LoggedIn(s: State, t: State, id: Uuid, now: Time, name: string, kind: ClientType, options: set<Power>,
                           g: bool, global: Option<Uuid>, l: bool, local: Option<Uuid>, r: Uuid)
    requires id in s.clients
  {
    var who := s.clients[id].(name := name, kind := kind, options := options, status := Connected,
                              lastAction := now, lastPing := now);
    && Becomes(s, t, Noted(Noted(s.clients[id := who], id, g, global), id, l, local),
               Welcomed(Welcomed(s.channels, g, global, who), l, local, who))
    && Box(t.outbox, r) ==
       Box(s.outbox, r) + (if r == id then [AuthOk(id, name)] else []) + LobbyMail(s, g, global, who, r)
       + LobbyMail(s, l, local, who, r)
  }

  /** A guest's login: it gets the name it asked for with a prefix, or a generated one, unless that is somebody's name
      already, or is not a valid name. */
  lemma GuestLoginEffect(s: State, id: Uuid, x: Chance, username: Option<string>, r: Uuid)
    requires Inv(s) && id in s.clients && s.clients[id].status == PendingAuth
    requires Legal(s, Issue(id, GuestLogin(username), x))
    ensures var t := Apply(s, Issue(id, GuestLogin(username), x));
            var name := if username.Some? then "Guest-" + username.value else x.guestName;
            if !s.conf.allowGuests then Refused(s, t, id, x.now, NotAvailable)
            else if exists k :: k in s.clients && s.clients[k].name == name then Refused(s, t, id, x.now, NameInUse)
            else if !T.ClientName(name) then Refused(s, t, id, x.now, NameInvalid)
            else LoggedIn(s, t, id, x.now, name, Guest, s.conf.guestOptions, s.conf.useGlobal, x.global,
                          s.conf.useGuest, x.local, r)
  {
    hide *;
    var u, cmd := Touch(s, id, x.now), GuestLogin(username);
    var name := if username.Some? then "Guest-" + username.value else x.guestName;
    TouchedSame(s, id, cmd, x);
    HandleIs(u, id, cmd, x);
    TellRefuses(s, id, x.now);
    GuestIs(s, u, id, x.now, username, x);
    LegalLookups(s, id, cmd, x);
    LobbyNames();
    if !exists k :: k in s.clients && s.clients[k].name == name {
      if T.ClientName(name) {
        LoginEffect(s, id, x.now, name, Guest, s.conf.guestOptions, s.conf.useGlobal, x.global,
                    s.conf.useGuest, x.local, GUEST_LOBBY, r);
      }
    }
  }

  /** An agent's login: wrong credentials end the connection at once. */
  lemma AgentLoginEffect(s: State, id: Uuid, x: Chance, name: string, permissions: Option<set<Power>>, r: Uuid)
    requires Inv(s) && id in s.clients && s.clients[id].status == PendingAuth
    requires Legal(s, Issue(id, AgentLogin(name, permissions), x))
    ensures var t := Apply(s, Issue(id, AgentLogin(name, permissions), x));
            if permissions.None? then
              Becomes(s, t, s.clients - {id}, s.channels) && Sent(s, t, {id}, [Trouble(InvalidAuth)])
            else if exists k :: k in s.clients && s.clients[k].name == name then Refused(s, t, id, x.now, NameInUse)
            else if !T.ClientName(name) then Refused(s, t, id, x.now, NameInvalid)
            else LoggedIn(s, t, id, x.now, name, Agent, permissions.value, s.conf.useGlobal, x.global,
                          s.conf.useStaff, x.local, r)
  {
    hide *;
    var u, cmd := Touch(s, id, x.now), AgentLogin(name, permissions);
    TouchedSame(s, id, cmd, x);
    HandleIs(u, id, cmd, x);
    TellRefuses(s, id, x.now);
    AgentIs(s, u, id, x.now, name, permissions, x);
    LegalLookups(s, id, cmd, x);
    LobbyNames();
    if permissions.None? {
      Sacked(s, id, x.now);
    } else if !exists k :: k in s.clients && s.clients[k].name == name {
      if T.ClientName(name) {
        LoginEffect(s, id, x.now, name, Agent, permissions.value, s.conf.useGlobal, x.global,
                    s.conf.useStaff, x.local, STAFF_LOBBY, r);
      }
    }
  }

  lemma Sacked(s: State, id: Uuid, now: Time)
    requires id in s.clients
    ensures var t := DropClient(Tell(Touch(s, id, now), id, InvalidAuth), id);
            Becomes(s, t, s.clients - {id}, s.channels) && Sent(s, t, {id}, [Trouble(InvalidAuth)])
  {
    assert Touch(s, id, now).clients - {id} == s.clients - {id};
  }

  lemma LobbyNames()
    ensures GUEST_LOBBY != GLOBAL_LOBBY && STAFF_LOBBY != GLOBAL_LOBBY && OpenLobby(GUEST_LOBBY)
  {
    assert GUEST_LOBBY[1] != GLOBAL_LOBBY[1] && STAFF_LOBBY[0] != GLOBAL_LOBBY[0];
  }

  lemma LegalLookups(s: State, id: Uuid, cmd: Command, x: Chance)
    requires id in s.clients && Legal(s, Issue(id, cmd, x))
    ensures ExactLookup(s, GLOBAL_LOBBY, x.global)
    ensures cmd.GuestLogin? ==> ExactLookup(s, GUEST_LOBBY, x.local)
    ensures cmd.AgentLogin? ==> ExactLookup(s, STAFF_LOBBY, x.local)
  {
    hide ExactLookup, LowerLookup, Enumerates, ClockOk;
  }

  lemma SameTaken(s: State, id: Uuid, now: Time, name: string)
    requires id in s.clients
    ensures NameTaken(Touch(s, id, now), name) <==> exists k :: k in s.clients && s.clients[k].name == name
  {
    var u := Touch(s, id, now);
    if k :| k in s.clients && s.clients[k].name == name {
      assert k in u.clients && u.clients[k].name == name;
    }
  }

  lemma GuestIs(s: State, u: State, id: Uuid, now: Time, username: Option<string>, x: Chance)
    requires id in s.clients && u == Touch(s, id, now)
    ensures var name := if username.Some? then "Guest-" + username.value else x.guestName;
            AuthGuest(u, id, GuestName(username, x.guestName), x.global, x.local) ==
              if !s.conf.allowGuests then Tell(u, id, NotAvailable)
              else if exists k :: k in s.clients && s.clients[k].name == name then Tell(u, id, NameInUse)
              else if !T.ClientName(name) then Tell(u, id, NameInvalid)
              else
                EnterLobby(EnterLobby(SignIn(u, id, name, Guest, s.conf.guestOptions), id, s.conf.useGlobal, x.global),
                           id, s.conf.useGuest, x.local)
  {
    SameTaken(s, id, now, GuestName(username, x.guestName));
    hide Tell, EnterLobby, SignIn, T.ClientName, NameTaken;
  }

  lemma AgentIs(s: State, u: State, id: Uuid, now: Time, name: string, permissions: Option<set<Power>>, x: Chance)
    requires id in s.clients && u == Touch(s, id, now)
    ensures AuthAgent(u, id, name, permissions, x.global, x.local) ==
              if permissions.None? then DropClient(Tell(u, id, InvalidAuth), id)
              else if exists k :: k in s.clients && s.clients[k].name == name then Tell(u, id, NameInUse)
              else if !T.ClientName(name) then Tell(u, id, NameInvalid)
              else
                EnterLobby(EnterLobby(SignIn(u, id, name, Agent, permissions.value), id, s.conf.useGlobal, x.global),
                           id, s.conf.useStaff, x.local)
  {
    SameTaken(s, id, now, name);
    hide Tell, EnterLobby, SignIn, T.ClientName, NameTaken, DropClient;
  }

  lemma LoginEffect(s: State, id: Uuid, now: Time, name: string, kind: ClientType, options: set<Power>,
                    g: bool, global: Option<Uuid>, l: bool, local: Option<Uuid>, lobby: string, r: Uuid)
    requires Inv(s) && id in s.clients && s.clients[id].status == PendingAuth && kind != Unknown
    requires T.ClientName(name) && !exists k :: k in s.clients && s.clients[k].name == name
    requires ExactLookup(s, GLOBAL_LOBBY, global) && ExactLookup(s, lobby, local) && lobby != GLOBAL_LOBBY
    requires OpenLobby(lobby) || kind == Agent
    ensures var t := EnterLobby(EnterLobby(SignIn(Touch(s, id, now), id, name, kind, options), id, g, global), id, l,
                                local);
            LoggedIn(s, t, id, now, name, kind, options, g, global, l, local, r)
  {
    hide *;
    TouchParts(s, id, now);
    var u := Touch(s, id, now);
    var s1 := SignIn(u, id, name, kind, options);
    var s2 := EnterLobby(s1, id, g, global);
    var t := EnterLobby(s2, id, l, local);
    var who := s1.clients[id];
    PendingUnknown(s, id);
    TouchKeeps(s, id, now);
    SameTaken(s, id, now, name);
    SignInKeeps(u, id, name, kind, options);
    SignInEffect(s, id, now, name, kind, options, r);
    LookupFrame(s, s1, GLOBAL_LOBBY, global);
    LookupFrame(s, s1, lobby, local);
    GlobalIsOpen(s1, id, global);
    EnterLobbyKeeps(s1, id, g, global);
    FoundThere(s1, GLOBAL_LOBBY, global);
    FoundThere(s1, lobby, local);
    LobbyEffect(s1, id, g, global, r);
    BothLobbies(s1, s2, id, g, global, local, lobby);
    LobbyEffect(s2, id, l, local, r);
    BecomesIs(s, s1, s.clients[id := who], s.channels);
    BecomesIs(s1, s2, Noted(s1.clients, id, g, global), Welcomed(s1.channels, g, global, who));
    NotedOnly(s1.clients, id, g, global, r);
    BecomesIs(s2, t, Noted(s2.clients, id, l, local), Welcomed(s2.channels, l, local, s2.clients[id]));
    SameWelcomed(s2.channels, l, local, who, s2.clients[id]);
    if r != id {
      SameAgents(s.clients, id, who, r);
    }
    SameMail(s, s1, g, global, who, who, r);
    SameMail(s, s2, l, local, who, s2.clients[id], r);
    BecomesIs(s, t, Noted(Noted(s.clients[id := who], id, g, global), id, l, local),
              Welcomed(Welcomed(s.channels, g, global, who), l, local, who));
    LoggedInIs(s, t, id, now, name, kind, options, g, global, l, local, r);
  }

  lemma LoggedInIs(s: State, t: State, id: Uuid, now: Time, name: string, kind: ClientType, options: set<Power>,
                   g: bool, global: Option<Uuid>, l: bool, local: Option<Uuid>, r: Uuid)
    requires id in s.clients
    ensures var who := s.clients[id].(name := name, kind := kind, options := options, status := Connected,
                                      lastAction := now, lastPing := now);
            LoggedIn(s, t, id, now, name, kind, options, g, global, l, local, r) <==>
              && Becomes(s, t, Noted(Noted(s.clients[id := who], id, g, global), id, l, local),
                         Welcomed(Welcomed(s.channels, g, global, who), l, local, who))
              && Box(t.outbox, r) ==
                 Box(s.outbox, r) + (if r == id then [AuthOk(id, name)] else []) + LobbyMail(s, g, global, who, r)
                 + LobbyMail(s, l, local, who, r)
  {
    hide LobbyMail;
  }

  lemma PendingUnknown(s: State, id: Uuid)
    requires Inv(s) && id in s.clients && s.clients[id].status == PendingAuth
    ensures s.clients[id].kind == Unknown && s.clients[id].id == id
  {
    hide Inv;
    StandingAt(s, id);
    IdIssued(s, id);
  }

  lemma FoundThere(s: State, name: string, found: Option<Uuid>)
    requires ExactLookup(s, name, found)
    ensures found.Some? ==> found.value in s.channels && s.channels[found.value].name == name
  {
  }

  lemma SignInEffect(s: State, id: Uuid, now: Time, name: string, kind: ClientType, options: set<Power>, r: Uuid)
    requires id in s.clients
    ensures var t := SignIn(Touch(s, id, now), id, name, kind, options);
            var who := s.clients[id].(name := name, kind := kind, options := options, status := Connected,
                                      lastAction := now, lastPing := now);
            && Becomes(s, t, s.clients[id := who], s.channels)
            && id in t.clients && t.clients[id] == who
            && Box(t.outbox, r) == Box(s.outbox, r) + if r == id then [AuthOk(id, name)] else []
  {
  }

  /** The second lobby is another channel than the first, so it is found as it was. */
  lemma BothLobbies(s: State, t: State, id: Uuid, g: bool, global: Option<Uuid>, local: Option<Uuid>, name: string)
    requires id in s.clients && t.channels.Keys == s.channels.Keys && name != GLOBAL_LOBBY
    requires forall c :: c in s.channels ==> id !in s.channels[c].members
    requires forall c :: c in s.channels && Some(c) != global ==> t.channels[c] == s.channels[c]
    requires ExactLookup(s, GLOBAL_LOBBY, global) && ExactLookup(s, name, local)
    ensures global.Some? ==> id !in s.channels[global.value].members
    ensures local.Some? ==>
              && local != global && local.value in s.channels && local.value in t.channels
              && t.channels[local.value] == s.channels[local.value] && id !in t.channels[local.value].members
  {
  }

  /** Nothing that is said about the newcomer depends on its own list or its own type as the recipient. */
  lemma SameMail(s: State, t: State, use: bool, lobby: Option<Uuid>, who: ClientRec, after: ClientRec, r: Uuid)
    requires lobby.Some? ==> lobby.value in s.channels && lobby.value in t.channels
                             && t.channels[lobby.value] == s.channels[lobby.value]
    requires after == who.(channels := after.channels)
    requires r != who.id ==> (IsAgent(t.clients, r) <==> IsAgent(s.clients, r))
    ensures LobbyMail(t, use, lobby, after, r) == LobbyMail(s, use, lobby, who, r)
  {
    hide M.Labels, IsAgent;
  }

  lemma SameWelcomed(channels: Channels, use: bool, lobby: Option<Uuid>, who: ClientRec, after: ClientRec)
    requires after == who.(channels := after.channels)
    ensures Welcomed(channels, use, lobby, after) == Welcomed(channels, use, lobby, who)
  {
  }

  lemma NotedOnly(clients: Clients, id: Uuid, use: bool, lobby: Option<Uuid>, r: Uuid)
    requires id in clients
    ensures var after := Noted(clients, id, use, lobby);
            && id in after && after[id] == clients[id].(channels := after[id].channels)
            && (r != id ==> (IsAgent(after, r) <==> IsAgent(clients, r)))
  {
  }

  lemma SameAgents(clients: Clients, id: Uuid, who: ClientRec, r: Uuid)
    requires r != id
    ensures IsAgent(clients[id := who], r) <==> IsAgent(clients, r)
  {
  }
}
