/** The settings dialog over whole runs: the last mode labels a member was sent are the channel's present modes. */
module Dialog {
  import opened Basics
  import opened Uuids
  import opened Messages
  import opened Machine
  import opened Invariants
  import opened SmallSteps
  import opened Departure
  import opened Handlers
  import opened Steps
  import opened Runs
  import opened Collection
  import opened Page
  import R = Roster
  import S = Settings
  import M = Modes
  import T = Text

  /** The last labels that a client was sent about a channel. */
  function ShownTo(s: State, r: Uuid, c: Uuid): Option<seq<string>> {
    Shown(c, Box(s.outbox, r))
  }

  /** Every member, except those who join unseen, was last sent the present modes. */
  ghost predicate UpToDate(s: State) {
    forall c, r :: c in s.channels && r in s.channels[c].members && Unseen !in s.channels[c].members[r].options
      ==> ShownTo(s, r, c) == Some(M.Labels(s.channels[c].options))
  }

  /** Nobody was sent any mode labels. */
  ghost predicate Quiet(s: State, t: State) {
    forall r: Uuid, c :: ShownTo(t, r, c) == ShownTo(s, r, c)
  }

  lemma ShownCast(s: State, to: set<Uuid>, m: Msg, r: Uuid, c: Uuid)
    ensures ShownTo(Cast(s, to, m), r, c) ==
            if r in to && m.ChannelModes? && m.channel == c then Some(m.labels) else ShownTo(s, r, c)
  {
    ShownSnoc(c, Box(s.outbox, r), m);
  }

  lemma CastQuiet(s: State, to: set<Uuid>, m: Msg)
    requires !m.ChannelModes?
    ensures Quiet(s, Cast(s, to, m))
    ensures forall cond :: Quiet(s, CastIf(s, cond, to, m))
  {
    hide ShownTo, Cast;
    forall r: Uuid, c ensures ShownTo(Cast(s, to, m), r, c) == ShownTo(s, r, c) {
      ShownCast(s, to, m, r, c);
    }
  }

  lemma QuietOn(s: State, u: State, t: State)
    requires Quiet(s, u) && Quiet(u, t)
    ensures Quiet(s, t)
  {
  }

  lemma SameBoxesQuiet(s: State, t: State)
    requires t.outbox == s.outbox
    ensures Quiet(s, t)
  {
  }

  lemma TellQuiet(s: State, id: Uuid, code: Problem)
    ensures Quiet(s, Tell(s, id, code))
  {
    hide Quiet;
    CastQuiet(s, {id}, Trouble(code));
  }

  // Handlers that send no labels

  lemma TearQuiet(s: State, id: Uuid, cid: Uuid, name: string, reason: string, discreet: bool)
    ensures Quiet(s, Tear(s, id, cid, name, reason, discreet))
  {
    var t := Tear(s, id, cid, name, reason, discreet);
    if cid in s.channels {
      var to, m := Told(s.channels[cid], id, discreet), Quit(cid, id, name, reason);
      TearParts(s, id, cid, name, reason, discreet);
      hide Tear, Quiet;
      CastQuiet(s, to, m);
      SameBoxesQuiet(Cast(s, to, m), t);
      QuietOn(s, Cast(s, to, m), t);
    } else {
      SameBoxesQuiet(s, t);
    }
  }

  lemma {:induction false} TearAllQuiet(s: State, id: Uuid, order: seq<Uuid>, name: string, reason: string,
                                        discreet: bool)
    ensures Quiet(s, TearAll(s, id, order, name, reason, discreet))
  {
    hide Quiet, Tear;
    if order == [] {
      SameBoxesQuiet(s, s);
    } else {
      var u := TearAll(s, id, order[..|order| - 1], name, reason, discreet);
      TearAllQuiet(s, id, order[..|order| - 1], name, reason, discreet);
      TearQuiet(u, id, order[|order| - 1], name, reason, discreet);
      QuietOn(s, u, TearAll(s, id, order, name, reason, discreet));
    }
  }

  lemma TeardownQuiet(s: State, id: Uuid, order: seq<Uuid>, name: string, reason: string, discreet: bool)
    ensures Quiet(s, DropClient(TearAll(s, id, order, name, reason, discreet), id))
  {
    hide Quiet, TearAll;
    var u := TearAll(s, id, order, name, reason, discreet);
    TearAllQuiet(s, id, order, name, reason, discreet);
    SameBoxesQuiet(u, DropClient(u, id));
    QuietOn(s, u, DropClient(u, id));
  }

  lemma KillQuiet(s: State, actor: Uuid, target: Uuid, reason: string, order: seq<Uuid>)
    requires actor in s.clients
    ensures Quiet(s, Kill(s, actor, target, reason, order))
  {
    TellQuiet(s, actor, PermissionDenied);
    TellQuiet(s, actor, NameInvalid);
    TellQuiet(s, actor, InvalidArgument);
    hide Quiet, TearAll, T.Escape, Deliver, WallopTo;
    if MayKill(s, actor, target, reason) {
      var victim, why := s.clients[target], KillReason(reason);
      var s1 := TearAll(s, target, order, victim.name, "Killed (" + why + ")", false);
      var s2 := Cast(s1, {target}, Trouble(KickedFromServer));
      var s3 := DropClient(s2, target);
      var m := KillNotice(s.clients[actor].name, victim.name, victim.ip, why);
      TearAllQuiet(s, target, order, victim.name, "Killed (" + why + ")", false);
      CastQuiet(s1, {target}, Trouble(KickedFromServer));
      SameBoxesQuiet(s2, s3);
      CastQuiet(s3, WallopTo(s3), m);
      QuietOn(s, s1, s2);
      QuietOn(s, s2, s3);
      QuietOn(s, s3, Cast(s3, WallopTo(s3), m));
    }
  }

  lemma {:induction false} KillAllQuiet(s: State, actor: Uuid, plan: seq<Victim>, reason: string)
    ensures Quiet(s, KillAll(s, actor, plan, reason))
  {
    hide Quiet, Kill;
    if plan == [] {
      SameBoxesQuiet(s, s);
    } else {
      var u := KillAll(s, actor, plan[..|plan| - 1], reason);
      KillAllQuiet(s, actor, plan[..|plan| - 1], reason);
      if actor in u.clients {
        KillQuiet(u, actor, plan[|plan| - 1].id, reason, plan[|plan| - 1].order);
        QuietOn(s, u, KillAll(s, actor, plan, reason));
      }
    }
  }

  lemma KlineQuiet(s: State, actor: Uuid, ip: Ip, reason: string, plan: seq<Victim>)
    requires actor in s.clients
    ensures Quiet(s, Kline(s, actor, ip, reason, plan))
  {
    TellQuiet(s, actor, PermissionDenied);
    TellQuiet(s, actor, AlreadyMember);
    hide Quiet, KillAll, Banned, BanReason, Deliver, WallopTo, Tell;
    if s.clients[actor].kind == Agent && !Banned(s.bans, ip) {
      var m := BanNotice(s.clients[actor].name, ip, |plan|, BanReason(reason));
      var s1 := s.(bans := s.bans + [Ban(ip, reason, s.clients[actor].name)]);
      var s2 := Cast(s1, WallopTo(s1), m);
      SameBoxesQuiet(s, s1);
      CastQuiet(s1, WallopTo(s1), m);
      KillAllQuiet(s2, actor, plan, BanReason(reason));
      QuietOn(s, s1, s2);
      QuietOn(s, s2, KillAll(s2, actor, plan, BanReason(reason)));
    }
  }

  lemma {:induction false} PurgeAllQuiet(s: State, plan: seq<Victim>)
    ensures Quiet(s, PurgeAll(s, plan))
  {
    hide Quiet, TearAll;
    if plan == [] {
      SameBoxesQuiet(s, s);
    } else {
      var v, u := plan[|plan| - 1], PurgeAll(s, plan[..|plan| - 1]);
      PurgeAllQuiet(s, plan[..|plan| - 1]);
      if v.id in u.clients {
        TeardownQuiet(u, v.id, v.order, u.clients[v.id].name, "ping timeout: 180 seconds", false);
        QuietOn(s, u, PurgeAll(s, plan));
      }
    }
  }

  lemma CheckQuiet(s: State, now: Time, plan: seq<Victim>)
    ensures Quiet(s, HealthCheck(s, now, plan))
  {
    var s1 := s.(clients := map k | k in s.clients :: Checked(s.clients[k], now));
    var s2 := Cast(s1, PingedIn(s, now), Ping(now));
    var s3 := Cast(s2, ExpiredIn(s, now), PingTimeout);
    assert Inspect(s, now) == s3 && s1.outbox == s.outbox;
    hide Quiet, PurgeAll, Cast, Inspect, PingedIn, ExpiredIn;
    SameBoxesQuiet(s, s1);
    CastQuiet(s1, PingedIn(s, now), Ping(now));
    CastQuiet(s2, ExpiredIn(s, now), PingTimeout);
    PurgeAllQuiet(s3, plan);
    QuietOn(s, s1, s2);
    QuietOn(s, s2, s3);
    QuietOn(s, s3, PurgeAll(s3, plan));
  }

  lemma KickQuiet(s: State, actor: Uuid, cid: Uuid, user: Uuid, reason: string)
    requires actor in s.clients
    ensures Quiet(s, KickFrom(s, actor, cid, user, reason))
  {
    TellQuiet(s, actor, ChannelInvalid);
    TellQuiet(s, actor, PermissionDenied);
    TellQuiet(s, actor, NotMember);
    hide Quiet, Deliver, Tell;
    if MayKick(s, actor, cid, user) {
      var u := Cast(s, s.channels[cid].members.Keys, Kick(cid, user, reason));
      KickParts(s, actor, cid, user, reason);
      CastQuiet(s, s.channels[cid].members.Keys, Kick(cid, user, reason));
      SameBoxesQuiet(u, KickFrom(s, actor, cid, user, reason));
      QuietOn(s, u, KickFrom(s, actor, cid, user, reason));
    }
  }

  lemma TopicQuiet(s: State, actor: Uuid, cid: Uuid, topic: string)
    requires actor in s.clients
    ensures Quiet(s, SetTopic(s, actor, cid, topic))
  {
    TellQuiet(s, actor, ChannelInvalid);
    TellQuiet(s, actor, PermissionDenied);
    TellQuiet(s, actor, InvalidArgument);
    hide Quiet, Deliver, Tell, T.Escape;
    if cid in s.channels {
      var ch, clean := s.channels[cid], T.Escape(topic);
      var s1 := s.(channels := s.channels[cid := ch.(topic := if clean == "" then None else Some(clean))]);
      var m := Text(cid, NIL, s.clients[actor].name, "has changed the channel topic.");
      var s2 := Cast(s1, ch.members.Keys, m);
      SameBoxesQuiet(s, s1);
      CastQuiet(s1, ch.members.Keys, m);
      CastQuiet(s2, ch.members.Keys, Topic(cid, clean));
      QuietOn(s, s1, s2);
      QuietOn(s, s2, Cast(s2, ch.members.Keys, Topic(cid, clean)));
    }
  }

  lemma SayQuiet(s: State, actor: Uuid, cid: Uuid, text: string)
    requires actor in s.clients
    ensures Quiet(s, Say(s, actor, cid, text))
  {
    hide Quiet, Deliver, T.Escape, Hearers;
    if cid in s.channels && actor in s.channels[cid].members {
      CastQuiet(s, Hearers(s.channels[cid], actor), Text(cid, actor, s.clients[actor].name, T.Escape(text)));
    } else {
      SameBoxesQuiet(s, s);
    }
  }

  lemma BroadcastPartQuiet(s: State, ch: ChannelRec, who: Uuid, ip: Ip)
    ensures Quiet(s, BroadcastPart(s, ch, who, ip))
  {
    var masked, open := Part(ch.id, who, MASKED), Part(ch.id, who, ip);
    var u := Cast(s, NonAgentsOf(ch), masked);
    hide Quiet, NonAgentsOf, AgentsOf, Deliver;
    CastQuiet(s, NonAgentsOf(ch), masked);
    CastQuiet(u, AgentsOf(ch), open);
    QuietOn(s, u, Cast(u, AgentsOf(ch), open));
    SameBoxesQuiet(s, s);
  }

  lemma BroadcastJoinQuiet(s: State, ch: ChannelRec, who: Uuid, name: string, ip: Ip)
    ensures Quiet(s, BroadcastJoin(s, ch, who, name, ip))
  {
    var masked, open := Join(ch.id, who, name, MASKED), Join(ch.id, who, name, ip);
    var u := Cast(s, NonAgentsOf(ch), masked);
    hide Quiet, NonAgentsOf, AgentsOf, Deliver;
    CastQuiet(s, NonAgentsOf(ch), masked);
    CastQuiet(s, AgentsOf(ch), open);
    CastQuiet(u, AgentsOf(ch), open);
    QuietOn(s, u, Cast(u, AgentsOf(ch), open));
  }

  lemma PartQuiet(s: State, actor: Uuid, cid: Uuid)
    requires actor in s.clients
    ensures Quiet(s, PartFrom(s, actor, cid))
  {
    TellQuiet(s, actor, ChannelInvalid);
    TellQuiet(s, actor, PermissionDenied);
    TellQuiet(s, actor, NotMember);
    hide Quiet, Deliver, Tell, Leave;
    if cid in s.channels {
      LeaveQuiet(s, actor, cid);
    }
  }

  lemma LeaveQuiet(s: State, actor: Uuid, cid: Uuid)
    requires actor in s.clients && cid in s.channels
    ensures Quiet(s, Leave(s, actor, cid))
  {
    var u, rest := Cast(s, {actor}, Part(cid, actor, MASKED)), Without(s.channels[cid], actor);
    var v := BroadcastPart(u, rest, actor, s.clients[actor].ip);
    R.LeaveParts(s, actor, cid);
    hide Quiet, Leave, Cast, BroadcastPart;
    CastQuiet(s, {actor}, Part(cid, actor, MASKED));
    BroadcastPartQuiet(u, rest, actor, s.clients[actor].ip);
    SameBoxesQuiet(v, Leave(s, actor, cid));
    QuietOn(s, u, v);
    QuietOn(s, v, Leave(s, actor, cid));
  }

  // Handlers that send labels

  lemma UpToDateFrame(s: State, t: State)
    requires UpToDate(s) && Quiet(s, t) && t.channels == s.channels
    ensures UpToDate(t)
  {
    hide ShownTo, M.Labels;
  }

  /** Where no membership is gained and no modes change, silence keeps everything up to date. */
  lemma QuietKeeps(d: Delta, s: State, t: State)
    requires UpToDate(s) && Quiet(s, t) && Evolves(d, s, t) && d.ins == {}
    requires forall c :: c in s.channels && c in t.channels ==> t.channels[c].options == s.channels[c].options
    ensures UpToDate(t)
  {
    hide ShownTo, M.Labels, ClientsEvolve, TextsKept, AddressesKept, PingsKept;
    forall c, r | c in t.channels && r in t.channels[c].members && Unseen !in t.channels[c].members[r].options
      ensures ShownTo(t, r, c) == Some(M.Labels(t.channels[c].options))
    {
      assert r in t.channels[c].members.Keys;
      if c in s.channels {
        assert SameChannel(d, c, s.channels[c], t.channels[c]);
        assert r in s.channels[c].members.Keys;
        assert ShownTo(s, r, c) == Some(M.Labels(s.channels[c].options));
      }
    }
  }

  lemma AnnounceShown(s: State, id: Uuid, cid: Uuid, r: Uuid, c: Uuid)
    requires id in s.clients && cid in s.channels && s.channels[cid].id == cid
    ensures ShownTo(Announce(s, id, cid), r, c) ==
            if r == id && c == cid && Unseen !in s.clients[id].options then Some(M.Labels(s.channels[cid].options))
            else ShownTo(s, r, c)
  {
    var x, ch := s.clients[id], s.channels[cid];
    var heard := BroadcastJoin(s, ch, id, x.name, x.ip);
    hide ShownTo, BroadcastJoin, Deliver, M.Labels;
    BroadcastJoinQuiet(s, ch, id, x.name, x.ip);
    ShownCast(heard, {id}, ChannelModes(cid, M.Labels(ch.options)), r, c);
  }

  lemma WelcomeQuiet(s: State, id: Uuid, cid: Uuid, lobby: bool)
    requires id in s.clients && cid in s.channels
    ensures Quiet(s, Welcome(s, id, cid, lobby))
  {
    var x, ch := s.clients[id], s.channels[cid];
    var seen := M.Invisible !in ch.options || x.kind == Agent;
    var listed := M.HiddenMemberList !in ch.options || (!lobby && x.kind == Agent);
    var m1, m2, m3 := Join(ch.id, id, x.name, MASKED), UserList(ch.id, UsersOf(ch)),
      Topic(ch.id, ch.topic.UnwrapOr(""));
    var s1 := CastIf(s, seen, {id}, m1);
    var s2 := CastIf(s1, seen && listed, {id}, m2);
    hide Quiet, UsersOf, Deliver;
    SameBoxesQuiet(s, s);
    CastQuiet(s, {id}, m1);
    CastQuiet(s1, {id}, m2);
    CastQuiet(s2, {id}, m3);
    QuietOn(s, s1, s2);
    QuietOn(s, s2, CastIf(s2, seen && lobby && ch.topic.Some?, {id}, m3));
  }

  lemma SameBoxShown(s: State, t: State, r: Uuid, c: Uuid)
    requires s.outbox == t.outbox
    ensures ShownTo(s, r, c) == ShownTo(t, r, c)
  {
  }

  lemma EnterShown(s: State, id: Uuid, cid: Uuid, lobby: bool, r: Uuid, c: Uuid)
    requires id in s.clients && cid in s.channels && s.channels[cid].id == cid
    ensures ShownTo(Enter(s, id, cid, lobby), r, c) ==
            if r == id && c == cid && Unseen !in s.clients[id].options then Some(M.Labels(s.channels[cid].options))
            else ShownTo(s, r, c)
  {
    var s1, s2 := Announce(s, id, cid), Admit(s, id, cid);
    R.EnterParts(s, id, cid, lobby);
    AnnounceShown(s, id, cid, r, c);
    hide Enter, Admit, Announce, Welcome, ShownTo, M.Labels;
    SameBoxShown(s1, s2, r, c);
    WelcomeQuiet(s2, id, cid, lobby);
  }

  /** Whoever enters is shown the modes of the channel. */
  lemma EnterUpToDate(s: State, id: Uuid, cid: Uuid, lobby: bool)
    requires id in s.clients && cid in s.channels && s.channels[cid].id == cid && UpToDate(s)
    ensures UpToDate(Enter(s, id, cid, lobby))
  {
    var t := Enter(s, id, cid, lobby);
    EnterChannels(s, id, cid, lobby);
    hide Enter, ShownTo, M.Labels;
    forall c, r | c in t.channels && r in t.channels[c].members && Unseen !in t.channels[c].members[r].options
      ensures ShownTo(t, r, c) == Some(M.Labels(t.channels[c].options))
    {
      EnterShown(s, id, cid, lobby, r, c);
      if !(r == id && c == cid) {
        assert r in s.channels[c].members && s.channels[c].members[r] == t.channels[c].members[r];
        assert ShownTo(s, r, c) == Some(M.Labels(s.channels[c].options));
      }
    }
  }

  lemma EnterLobbyUpToDate(s: State, id: Uuid, use: bool, lobby: Option<Uuid>)
    requires id in s.clients && UpToDate(s) && forall c :: c in s.channels ==> s.channels[c].id == c
    ensures var t := EnterLobby(s, id, use, lobby); UpToDate(t) && forall c :: c in t.channels ==> t.channels[c].id == c
  {
    hide UpToDate, Enter;
    if use && lobby.Some? && lobby.value in s.channels {
      EnterUpToDate(s, id, lobby.value, true);
      EnterChannels(s, id, lobby.value, true);
    }
  }

  lemma LoginUpToDate(s: State, id: Uuid, name: string, kind: ClientType, options: set<Power>,
                      g: bool, global: Option<Uuid>, l: bool, local: Option<Uuid>)
    requires Inv(s) && id in s.clients && UpToDate(s)
    ensures UpToDate(EnterLobby(EnterLobby(SignIn(s, id, name, kind, options), id, g, global), id, l, local))
  {
    var u := SignIn(s, id, name, kind, options);
    var s1 := s.(clients :=
      s.clients[id := s.clients[id].(name := name, kind := kind, options := options, status := Connected)]);
    assert u == Cast(s1, {id}, AuthOk(id, name)) && u.channels == s.channels;
    assert forall c :: c in s.channels ==> s.channels[c].id == c by { OpenInv(s); }
    hide *;
    SameBoxesQuiet(s, s1);
    CastQuiet(s1, {id}, AuthOk(id, name));
    QuietOn(s, s1, u);
    UpToDateFrame(s, u);
    EnterLobbyUpToDate(u, id, g, global);
    EnterLobbyUpToDate(EnterLobby(u, id, g, global), id, l, local);
  }

  lemma AuthGuestUpToDate(s: State, id: Uuid, name: string, global: Option<Uuid>, local: Option<Uuid>)
    requires Inv(s) && id in s.clients && UpToDate(s)
    ensures UpToDate(AuthGuest(s, id, name, global, local))
  {
    hide Inv, UpToDate, Quiet, Tell, SignIn, EnterLobby, T.ClientName, NameTaken;
    RefusalUpToDate(s, id, NotAvailable);
    RefusalUpToDate(s, id, NameInUse);
    RefusalUpToDate(s, id, NameInvalid);
    LoginUpToDate(s, id, name, Guest, s.conf.guestOptions, s.conf.useGlobal, global, s.conf.useGuest, local);
  }

  lemma AuthAgentUpToDate(s: State, id: Uuid, name: string, permissions: Option<set<Power>>, global: Option<Uuid>,
                          local: Option<Uuid>)
    requires Inv(s) && id in s.clients && UpToDate(s)
    ensures UpToDate(AuthAgent(s, id, name, permissions, global, local))
  {
    hide Inv, UpToDate, Quiet, Tell, SignIn, EnterLobby, T.ClientName, NameTaken;
    RefusalUpToDate(s, id, InvalidAuth);
    RefusalUpToDate(s, id, NameInUse);
    RefusalUpToDate(s, id, NameInvalid);
    if permissions.Some? {
      LoginUpToDate(s, id, name, Agent, permissions.value, s.conf.useGlobal, global, s.conf.useStaff, local);
    } else {
      var u := Tell(s, id, InvalidAuth);
      SameBoxesQuiet(u, DropClient(u, id));
      UpToDateFrame(u, DropClient(u, id));
    }
  }

  lemma RefusalUpToDate(s: State, id: Uuid, code: Problem)
    requires UpToDate(s)
    ensures UpToDate(Tell(s, id, code))
  {
    hide UpToDate, Quiet;
    TellQuiet(s, id, code);
    UpToDateFrame(s, Tell(s, id, code));
  }

  /** A created channel has its creator as only member, who is shown its modes. */
  lemma CreateUpToDate(s: State, actor: Uuid, name: string, newId: Uuid)
    requires actor in s.clients && newId !in s.channels && UpToDate(s)
    ensures UpToDate(Create(s, actor, name, newId))
  {
    var t, ch := Create(s, actor, name, newId), R.NewChannel(newId, name, actor);
    var s0 := s.(channels := s.channels[newId := ch], issued := s.issued + {newId});
    var m := Join(newId, actor, s.clients[actor].name, MASKED);
    var s1 := Announce(s0, actor, newId);
    R.CreateParts(s, actor, name, newId);
    CreatedChannels(s, actor, name, newId);
    assert t.channels[newId].options == ch.options
      && t.channels[newId].members == map[actor := Clone(s.clients[actor])];
    assert t.channels == s.channels[newId := t.channels[newId]] && ch.id == newId;
    hide Create, Announce, ShownTo, M.Labels, Cast, R.NewChannel;
    forall c, r | c in t.channels && r in t.channels[c].members && Unseen !in t.channels[c].members[r].options
      ensures ShownTo(t, r, c) == Some(M.Labels(t.channels[c].options))
    {
      SameBoxShown(s, s0, r, c);
      AnnounceShown(s0, actor, newId, r, c);
      ShownCast(s1, {actor}, m, r, c);
      SameBoxShown(Cast(s1, {actor}, m), t, r, c);
      if c != newId {
        assert ShownTo(s, r, c) == Some(M.Labels(s.channels[c].options));
      }
    }
  }

  lemma JoinUpToDate(s: State, actor: Uuid, channel: string, found: Option<Uuid>, newId: Uuid)
    requires Inv(s) && actor in s.clients && (found.Some? ==> found.value in s.channels) && newId !in s.channels
             && UpToDate(s)
    ensures UpToDate(JoinTo(s, actor, channel, found, newId))
  {
    hide Inv, UpToDate, Quiet, Tell, Enter, Create, LooksLikeV4, T.ChannelName;
    RefusalUpToDate(s, actor, ChannelInvalid);
    RefusalUpToDate(s, actor, ChannelNameBad);
    RefusalUpToDate(s, actor, PermissionDenied);
    RefusalUpToDate(s, actor, AlreadyMember);
    OpenInv(s);
    if found.Some? {
      EnterUpToDate(s, actor, found.value, false);
    } else {
      CreateUpToDate(s, actor, channel, newId);
    }
  }

  lemma ModesShown(s: State, cid: Uuid, after: M.Options, m: Msg, r: Uuid, c: Uuid)
    requires cid in s.channels && !m.ChannelModes?
    ensures var ch := s.channels[cid];
            var s1 := s.(channels := s.channels[cid := ch.(options := after)]);
            var t := Cast(Cast(s1, ch.members.Keys, m), ch.members.Keys, ChannelModes(cid, M.Labels(after)));
            ShownTo(t, r, c) == if c == cid && r in ch.members then Some(M.Labels(after)) else ShownTo(s, r, c)
  {
    hide ShownTo, Cast, M.Labels;
    var ch := s.channels[cid];
    var s1 := s.(channels := s.channels[cid := ch.(options := after)]);
    SameBoxShown(s, s1, r, c);
    ShownCast(s1, ch.members.Keys, m, r, c);
    ShownCast(Cast(s1, ch.members.Keys, m), ch.members.Keys, ChannelModes(cid, M.Labels(after)), r, c);
  }

  /** Changed modes are sent to every member. */
  lemma ModesUpToDate(s: State, actor: Uuid, cid: Uuid, modes: M.U64)
    requires actor in s.clients && UpToDate(s)
    ensures UpToDate(SetModes(s, actor, cid, modes))
  {
    RefusalUpToDate(s, actor, ChannelInvalid);
    RefusalUpToDate(s, actor, PermissionDenied);
    hide Tell, ModesAfter, M.Labels, ShownTo, Deliver;
    if cid in s.channels && Owns(s.channels[cid], s.clients[actor]) {
      var ch := s.channels[cid];
      var after := ModesAfter(ch, s.clients[actor], modes);
      if after != ch.options {
        var t, m := SetModes(s, actor, cid, modes),
          Text(cid, NIL, s.clients[actor].name, "has changed the channel modes.");
        S.ModesParts(s, actor, cid, modes);
        forall c, r | c in t.channels && r in t.channels[c].members && Unseen !in t.channels[c].members[r].options
          ensures ShownTo(t, r, c) == Some(M.Labels(t.channels[c].options))
        {
          ModesShown(s, cid, after, m, r, c);
          assert ShownTo(s, r, c) == Some(M.Labels(s.channels[c].options));
        }
      }
    }
  }

  // Steps and runs

  lemma QuietUntuned(d: Delta, s: State, t: State)
    requires UpToDate(s) && Quiet(s, t) && Evolves(d, s, t) && d.ins == {} && d.tuned == {}
    ensures UpToDate(t)
  {
    hide UpToDate, Quiet, ClientsEvolve, TextsKept, AddressesKept, PingsKept;
    forall c | c in s.channels && c in t.channels ensures t.channels[c].options == s.channels[c].options {
      assert SameChannel(d, c, s.channels[c], t.channels[c]);
    }
    QuietKeeps(d, s, t);
  }

  lemma TopicUpToDate(s: State, actor: Uuid, cid: Uuid, topic: string)
    requires Inv(s) && actor in s.clients && UpToDate(s)
    ensures UpToDate(SetTopic(s, actor, cid, topic))
  {
    hide *;
    TopicQuiet(s, actor, cid, topic);
    TopicKeeps(s, actor, cid, topic);
    TopicOptions(s, actor, cid, topic);
    TunedOnly(cid);
    QuietKeeps(Tuned(cid), s, SetTopic(s, actor, cid, topic));
  }

  lemma TopicOptions(s: State, actor: Uuid, cid: Uuid, topic: string)
    requires actor in s.clients
    ensures var after := SetTopic(s, actor, cid, topic).channels;
            forall c :: c in s.channels && c in after ==> after[c].options == s.channels[c].options
  {
    hide T.Escape, Deliver;
  }

  lemma TunedOnly(cid: Uuid)
    ensures Tuned(cid).ins == {}
  {
  }

  lemma SayUpToDate(s: State, actor: Uuid, cid: Uuid, text: string)
    requires actor in s.clients && UpToDate(s)
    ensures UpToDate(Say(s, actor, cid, text))
  {
    SayQuiet(s, actor, cid, text);
    assert Say(s, actor, cid, text).channels == s.channels by {
      hide UpToDate, Quiet, T.Escape, Deliver;
    }
    hide *;
    UpToDateFrame(s, Say(s, actor, cid, text));
  }

  lemma ListUpToDate(s: State, actor: Uuid)
    requires actor in s.clients && UpToDate(s)
    ensures UpToDate(ListTo(s, actor))
  {
    var m := ChannelList(ListFor(s.channels, s.clients[actor].kind));
    assert ListTo(s, actor).channels == s.channels;
    hide UpToDate, Quiet, Deliver, ListFor;
    CastQuiet(s, {actor}, m);
    UpToDateFrame(s, ListTo(s, actor));
  }

  lemma DisconnectUpToDate(s: State, id: Uuid, reason: string, order: seq<Uuid>)
    requires Inv(s) && id in s.clients && Enumerates(order, s.clients[id].channels) && UpToDate(s)
    ensures UpToDate(Disconnect(s, id, reason, order))
  {
    hide Inv, Evolves, UpToDate, Quiet, Enumerates, TearAll;
    TeardownQuiet(s, id, order, s.clients[id].name, reason, true);
    DisconnectMeaning(s, id, reason, order);
    QuietUntuned(Gone(id), s, Disconnect(s, id, reason, order));
  }

  lemma Harmless(id: Uuid, ids: set<Uuid>, d: Delta)
    requires d == Gone(id) || d == STILL || d == Left(ids)
    ensures d.ins == {} && d.tuned == {}
  {
  }

  lemma FirstCommandUpToDate(s: State, id: Uuid, cmd: Command, x: Chance)
    requires Inv(s) && id in s.clients && LegalCommand(s, id, cmd, x) && s.clients[id].status == PendingAuth
    requires UpToDate(s)
    ensures UpToDate(Handle(s, id, cmd, x))
  {
    hide *;
    CommandChoices(s, id, cmd, x);
    HandleIs(s, id, cmd, x);
    match cmd
    case GuestLogin(username) => AuthGuestUpToDate(s, id, GuestName(username, x.guestName), x.global, x.local);
    case AgentLogin(nickname, permissions) => AuthAgentUpToDate(s, id, nickname, permissions, x.global, x.local);
    case DeviceLogin =>
    case _ => DisconnectUpToDate(s, id, "bad request pre-auth", x.own);
  }

  lemma PartUpToDate(s: State, actor: Uuid, cid: Uuid)
    requires Inv(s) && actor in s.clients && UpToDate(s)
    ensures UpToDate(PartFrom(s, actor, cid))
  {
    hide *;
    PartQuiet(s, actor, cid);
    PartKeeps(s, actor, cid);
    Harmless(actor, {}, Gone(actor));
    QuietUntuned(Gone(actor), s, PartFrom(s, actor, cid));
  }

  lemma KickUpToDate(s: State, actor: Uuid, cid: Uuid, user: Uuid, reason: string)
    requires Inv(s) && actor in s.clients && UpToDate(s)
    ensures UpToDate(KickFrom(s, actor, cid, user, reason))
  {
    hide *;
    KickQuiet(s, actor, cid, user, reason);
    KickKeeps(s, actor, cid, user, reason);
    Harmless(user, {}, Gone(user));
    QuietUntuned(Gone(user), s, KickFrom(s, actor, cid, user, reason));
  }

  lemma KillUpToDate(s: State, actor: Uuid, target: Uuid, reason: string, order: seq<Uuid>)
    requires Inv(s) && actor in s.clients && UpToDate(s)
    requires target in s.clients ==> Enumerates(order, s.clients[target].channels)
    ensures UpToDate(Kill(s, actor, target, reason, order))
  {
    hide *;
    KillQuiet(s, actor, target, reason, order);
    KillMeaning(s, actor, target, reason, order);
    KillIs(s, actor, target, reason);
    Harmless(target, {}, KillDelta(s, actor, target, reason));
    QuietUntuned(KillDelta(s, actor, target, reason), s, Kill(s, actor, target, reason, order));
  }

  lemma KlineUpToDate(s: State, actor: Uuid, ip: Ip, reason: string, plan: seq<Victim>)
    requires Inv(s) && actor in s.clients && UpToDate(s) && Plans(s, KlineTargets(s, ip), plan)
    ensures UpToDate(Kline(s, actor, ip, reason, plan))
  {
    hide *;
    KlineQuiet(s, actor, ip, reason, plan);
    KlineKeeps(s, actor, ip, reason, plan);
    var killed := BanKills(s, actor, ip, reason, plan);
    Harmless(actor, killed, Left(killed));
    QuietUntuned(Left(killed), s, Kline(s, actor, ip, reason, plan));
  }

  lemma CommandUpToDate(s: State, id: Uuid, cmd: Command, x: Chance)
    requires Inv(s) && id in s.clients && LegalCommand(s, id, cmd, x)
    requires UpToDate(s)
    ensures UpToDate(Handle(s, id, cmd, x))
  {
    hide *;
    CommandChoices(s, id, cmd, x);
    HandleIs(s, id, cmd, x);
    if s.clients[id].status == PendingAuth {
      FirstCommandUpToDate(s, id, cmd, x);
    } else {
      match cmd
      case JoinChannel(name, target) =>
        NewChannelId(s, x.newId);
        JoinUpToDate(s, id, JoinText(name, target), JoinFound(s, name, target, x.named), x.newId);
      case PartChannel(channel) => PartUpToDate(s, id, channel);
      case KickMember(channel, user, reason) => KickUpToDate(s, id, channel, user, reason);
      case KillClient(user, reason) => KillUpToDate(s, id, user, reason, x.order);
      case BanIp(ip, reason) => KlineUpToDate(s, id, ip, reason, x.plan);
      case ChangeModes(channel, modes) => ModesUpToDate(s, id, channel, modes);
      case ChangeTopic(channel, topic) => TopicUpToDate(s, id, channel, topic);
      case SayText(channel, text) => SayUpToDate(s, id, channel, text);
      case ListChannels => ListUpToDate(s, id);
      case _ =>
    }
  }

  lemma KillIs(s: State, actor: Uuid, target: Uuid, reason: string)
    requires actor in s.clients
    ensures KillDelta(s, actor, target, reason) == Gone(target) || KillDelta(s, actor, target, reason) == STILL
  {
  }

  /** No step leaves a member with outdated modes. */
  lemma UpToDateStep(s: State, op: Op)
    requires Inv(s) && Legal(s, op) && CanAct(s, op) && UpToDate(s)
    ensures UpToDate(Apply(s, op))
  {
    hide Inv, UpToDate, Quiet, Handle, Disconnect, HealthCheck, LegalCommand, UnusedId, Plans, Enumerates, Evolves;
    match op
    case Connect(id, ip, name, now) =>
      SameBoxesQuiet(s, Accept(s, id, ip, name, now));
      UpToDateFrame(s, Accept(s, id, ip, name, now));
    case Issue(id, cmd, x) =>
      if id in s.clients {
        var u := Touch(s, id, x.now);
        assert u.clients[id].status == s.clients[id].status;
        TouchKeeps(s, id, x.now);
        LegalAfterTouch(s, id, cmd, x);
        SameBoxesQuiet(s, u);
        UpToDateFrame(s, u);
        CommandUpToDate(u, id, cmd, x);
      }
    case ReadError(id, reason, order) =>
      if id in s.clients {
        DisconnectUpToDate(s, id, reason, order);
      }
    case Check(now, plan) =>
      CheckQuiet(s, now, plan);
      CheckKeeps(s, now, plan);
      CheckHarmless(s, op);
      QuietUntuned(DeltaOf(s, op), s, Apply(s, op));
  }

  lemma CheckHarmless(s: State, op: Op)
    requires op.Check?
    ensures DeltaOf(s, op).ins == {} && DeltaOf(s, op).tuned == {}
  {
  }

  lemma NobodyToTell(u: Setup)
    ensures UpToDate(Start(u))
  {
  }

  /** In every state of every run, the last mode labels that a member was sent about a channel are the channel's
      present modes; only clients that join unseen are never shown any. */
  lemma {:induction false} ModesReplicate(r: Run, i: nat)
    requires IsRun(r) && i < |r.states|
    ensures UpToDate(r.states[i])
  {
    hide Inv, Legal, Apply, UpToDate, CanAct, Settled, Evolves;
    if i == 0 {
      NobodyToTell(r.setup);
    } else {
      ModesReplicate(r, i - 1);
      RunStep(r, i - 1);
      UpToDateStep(r.states[i - 1], r.ops[i - 1]);
    }
  }

  /** From the page to the server and back: at any point of any run, let a permitted member's page have received all
      its messages, and let no timer be pending. Then the page has the channel's present modes exactly if a timer has
      ended since it last joined; the dialog ticks these modes, and saving them unchanged neither changes anything nor
      sends anything. */
  lemma DialogRoundTrip(r: Run, i: nat, who: Uuid, c: Uuid, events: seq<Event>)
    requires IsRun(r) && i < |r.states| && who in r.states[i].clients && c in r.states[i].channels
    requires who in r.states[i].channels[c].members && Unseen !in r.states[i].channels[c].members[who].options
    requires Owns(r.states[i].channels[c], r.states[i].clients[who])
    requires Inbox(events) == Box(r.states[i].outbox, who) && After(who, c, events).due == []
    ensures var s, room := r.states[i], After(who, c, events).room;
            && (room == Some(Some(M.Labels(s.channels[c].options))) <==> Refreshed(who, c, events))
            && (room.Some? && room.value.Some? <==> Refreshed(who, c, events))
            && (room.Some? && room.value.Some? ==>
                  && M.OpenDialog(room.value.value) == s.channels[c].options
                  && SetModes(s, who, c, M.WordOf(M.OpenDialog(room.value.value))) == s)
  {
    var s := r.states[i];
    ModesReplicate(r, i);
    assert ShownTo(s, who, c) == Some(M.Labels(s.channels[c].options));
    assert ShownTo(s, who, c) == Shown(c, Inbox(events));
    hide *;
    KeptLabels(who, c, events);
    M.DialogShowsModes(s.channels[c].options);
    S.SavingUnchangedIsSilent(s, who, c);
  }
}
