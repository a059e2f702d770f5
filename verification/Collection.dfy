/** Empty channels are collected: exactly which steps can leave an empty, non-persistent channel behind. */
module Collection {
  import opened Basics
  import opened Uuids
  import opened Messages
  import opened Machine
  import opened Invariants
  import opened SmallSteps
  import opened Departure
  import opened Handlers
  import opened Steps
  import opened Runs
  import M = Modes
  import T = Text

  predicate Kept(ch: ChannelRec) {
    ch.members != map[] || M.Persist in ch.options
  }

  ghost predicate Collected(channels: Channels) {
    forall c :: c in channels ==> Kept(channels[c])
  }

  lemma DepartCollects(s: State, id: Uuid)
    requires Inv(s) && id in s.clients && Collected(s.channels)
    ensures Collected(Depart(s, id).channels)
  {
    hide Inv;
    MemberIsListed(s, id);
    forall c | c in Depart(s, id).channels ensures Kept(Depart(s, id).channels[c]) {
      WithoutTwice(s.channels[c], id);
      assert Kept(s.channels[c]);
    }
  }

  lemma {:induction false} KillAllCollects(s: State, actor: Uuid, plan: seq<Victim>, reason: string)
    requires Inv(s) && actor in s.clients && s.clients[actor].kind == Agent
    requires PlanFits(s, plan) && actor !in Others(plan) && Collected(s.channels)
    ensures Collected(KillAll(s, actor, plan, reason).channels)
  {
    hide Inv, Evolves, Enumerates, Kill, Depart, Collected, KilledOf, MayKill, Others;
    if plan != [] {
      var n := |plan| - 1;
      var v, u := plan[n], KillAll(s, actor, plan[..n], reason);
      OthersSnoc(plan);
      KillAllKeeps(s, actor, plan[..n], reason);
      KillAllCollects(s, actor, plan[..n], reason);
      KilledSnoc(s, u, actor, plan, reason);
      KillMeaning(u, actor, v.id, reason, v.order);
      DepartCollects(u, v.id);
    }
  }

  lemma {:induction false} PurgeAllCollects(s: State, plan: seq<Victim>)
    requires Inv(s) && PlanFits(s, plan) && Collected(s.channels)
    ensures Collected(PurgeAll(s, plan).channels)
  {
    hide Inv, Evolves, Enumerates, Purge, Depart, Collected, Others;
    if plan != [] {
      var n := |plan| - 1;
      var v, u := plan[n], PurgeAll(s, plan[..n]);
      OthersSnoc(plan);
      PurgeAllKeeps(s, plan[..n]);
      PurgeAllCollects(s, plan[..n]);
      PlanRest(s, u, plan);
      PurgeMeaning(u, v.id, v.order);
      DepartCollects(u, v.id);
    }
  }

  lemma LeaveCollects(s: State, actor: Uuid, cid: Uuid)
    requires Collected(s.channels) && actor in s.clients && cid in s.channels && s.channels[cid].id == cid
    ensures Collected(Leave(s, actor, cid).channels)
  {
    LeaveChannels(s, actor, cid);
  }

  lemma LeaveChannels(s: State, actor: Uuid, cid: Uuid)
    requires actor in s.clients && cid in s.channels
    ensures var ch := Without(s.channels[cid], actor);
            Leave(s, actor, cid).channels == if Kept(ch) then s.channels[cid := ch] else s.channels - {cid}
  {
    var ch, after := Without(s.channels[cid], actor), s.channels[cid := Without(s.channels[cid], actor)];
    assert after - {cid} == s.channels - {cid};
  }

  lemma EnterCollects(s: State, id: Uuid, cid: Uuid, lobby: bool)
    requires Collected(s.channels) && id in s.clients && cid in s.channels
    ensures Collected(Enter(s, id, cid, lobby).channels)
  {
    hide Enter;
    EnterChannels(s, id, cid, lobby);
    var ms := s.channels[cid].members[id := Clone(s.clients[id])];
    assert id in ms;
  }

  lemma EnterLobbyCollects(s: State, id: Uuid, use: bool, lobby: Option<Uuid>)
    requires Collected(s.channels) && id in s.clients
    ensures Collected(EnterLobby(s, id, use, lobby).channels)
  {
    hide Enter, Collected;
    if use && lobby.Some? && lobby.value in s.channels {
      EnterCollects(s, id, lobby.value, true);
    }
  }

  lemma LoginCollects(s: State, id: Uuid, name: string, kind: ClientType, options: set<Power>,
                      g: bool, global: Option<Uuid>, l: bool, local: Option<Uuid>)
    requires Collected(s.channels) && id in s.clients
    ensures Collected(EnterLobby(EnterLobby(SignIn(s, id, name, kind, options), id, g, global), id, l, local).channels)
  {
    var u := SignIn(s, id, name, kind, options);
    assert u.channels == s.channels;
    hide EnterLobby, SignIn, Collected;
    EnterLobbyCollects(u, id, g, global);
    EnterLobbyCollects(EnterLobby(u, id, g, global), id, l, local);
  }

  lemma CreateCollects(s: State, actor: Uuid, name: string, newId: Uuid)
    requires Collected(s.channels) && actor in s.clients
    ensures Collected(Create(s, actor, name, newId).channels)
  {
    CreatedChannels(s, actor, name, newId);
    var ms: map<Uuid, Member> := map[actor := Clone(s.clients[actor])];
    assert actor in ms;
  }

  /** What creating a channel adds to the registry. */
  lemma CreatedChannels(s: State, actor: Uuid, name: string, newId: Uuid)
    requires actor in s.clients
    ensures Create(s, actor, name, newId).channels ==
            s.channels[newId := ChannelRec(newId, name, Some(actor), map[actor := Clone(s.clients[actor])], None,
                                           {M.ClientInvites, M.SaveHistory})]
  {
    hide M.Labels;
    var empty: map<Uuid, Member> := map[];
    assert empty[actor := Clone(s.clients[actor])] == map[actor := Clone(s.clients[actor])];
  }

  lemma JoinCollects(s: State, actor: Uuid, channel: string, found: Option<Uuid>, newId: Uuid)
    requires Collected(s.channels) && actor in s.clients && (found.Some? ==> found.value in s.channels)
    ensures Collected(JoinTo(s, actor, channel, found, newId).channels)
  {
    hide Enter, Create, Collected, LooksLikeV4, T.ChannelName;
    CreateCollects(s, actor, channel, newId);
    if found.Some? {
      EnterCollects(s, actor, found.value, false);
    }
  }

  /** A permitted kick of the only member of a channel that does not persist. */
  ghost predicate StrandingKick(s: State, actor: Uuid, cid: Uuid, user: Uuid)
    requires actor in s.clients
  {
    MayKick(s, actor, cid, user) && s.channels[cid].members.Keys == {user} && M.Persist !in s.channels[cid].options
  }

  /** A channel as its owner created it, emptied by kicking the only member: it stays registered without members. */
  lemma KickStrands(s: State, actor: Uuid, cid: Uuid, user: Uuid, reason: string)
    requires actor in s.clients && user in s.clients && cid in s.channels && s.channels[cid].owner == Some(actor)
    requires s.clients[actor].id == actor && s.channels[cid].members.Keys == {user}
    requires s.channels[cid].options == {M.ClientInvites, M.SaveHistory}
    ensures var t := KickFrom(s, actor, cid, user, reason);
            cid in t.channels && t.channels[cid].members == map[] && !Collected(t.channels)
  {
    KickParts(s, actor, cid, user, reason);
    WithoutTwice(s.channels[cid], user);
    hide KickFrom;
    assert !Kept(KickFrom(s, actor, cid, user, reason).channels[cid]);
  }

  /** An agent takes Persist from a channel without members. */
  predicate StrandingModes(s: State, actor: Uuid, cid: Uuid, modes: M.U64)
    requires actor in s.clients
  {
    && cid in s.channels && s.clients[actor].kind == Agent
    && s.channels[cid].members == map[] && M.Persist !in M.FlagsOf(modes)
  }

  lemma KickCollects(s: State, actor: Uuid, cid: Uuid, user: Uuid, reason: string)
    requires Collected(s.channels) && actor in s.clients
    ensures Collected(KickFrom(s, actor, cid, user, reason).channels) <==> !StrandingKick(s, actor, cid, user)
  {
    if MayKick(s, actor, cid, user) {
      var ch := s.channels[cid];
      WithoutTwice(ch, user);
      assert KickFrom(s, actor, cid, user, reason).channels == s.channels[cid := Without(ch, user)];
      assert KickFrom(s, actor, cid, user, reason).channels[cid] == Without(ch, user);
      hide KickFrom;
    }
  }

  lemma ModesCollect(s: State, actor: Uuid, cid: Uuid, modes: M.U64)
    requires Collected(s.channels) && actor in s.clients
    ensures Collected(SetModes(s, actor, cid, modes).channels) <==> !StrandingModes(s, actor, cid, modes)
  {
    hide M.FlagsOf, M.Labels;
    var t := SetModes(s, actor, cid, modes);
    if cid in s.channels && Owns(s.channels[cid], s.clients[actor]) {
      var ch := s.channels[cid];
      assert t.channels == s.channels[cid := ch.(options := ModesAfter(ch, s.clients[actor], modes))];
      assert t.channels[cid].members == ch.members && Kept(ch);
      hide SetModes;
    }
  }

  lemma TopicCollects(s: State, actor: Uuid, cid: Uuid, topic: string)
    requires Collected(s.channels) && actor in s.clients
    ensures Collected(SetTopic(s, actor, cid, topic).channels)
  {
    hide T.Escape;
  }

  lemma KlineCollects(s: State, actor: Uuid, ip: Ip, reason: string, plan: seq<Victim>)
    requires Inv(s) && actor in s.clients && Plans(s, KlineTargets(s, ip), plan) && Collected(s.channels)
    ensures Collected(Kline(s, actor, ip, reason, plan).channels)
  {
    hide Inv, Evolves, KillAll, Enumerates, Banned, BanReason, Collected;
    if s.clients[actor].kind == Agent && !Banned(s.bans, ip) {
      var m := BanNotice(s.clients[actor].name, ip, |plan|, BanReason(reason));
      var s1 := s.(bans := s.bans + [Ban(ip, reason, s.clients[actor].name)]);
      var s2 := Cast(s1, WallopTo(s1), m);
      BanKeeps(s, s1);
      WallopFine(s1, m);
      CastOn(STILL, s, s1, WallopTo(s1), m);
      assert actor !in Others(plan) && PlanFits(s2, plan);
      KillAllCollects(s2, actor, plan, BanReason(reason));
    }
  }

  /** A command that strands an empty channel. */
  ghost predicate Strands(s: State, id: Uuid, cmd: Command)
    requires id in s.clients
  {
    && s.clients[id].status != PendingAuth
    && match cmd
       case KickMember(channel, user, _) => StrandingKick(s, id, channel, user)
       case ChangeModes(channel, modes) => StrandingModes(s, id, channel, modes)
       case _ => false
  }

  lemma CommandCollects(s: State, id: Uuid, cmd: Command, x: Chance)
    requires Inv(s) && id in s.clients && LegalCommand(s, id, cmd, x) && Collected(s.channels)
    ensures Collected(Handle(s, id, cmd, x).channels) <==> !Strands(s, id, cmd)
  {
    hide Inv, Evolves, JoinTo, KickFrom, SetModes, SetTopic, Disconnect, Kline, Kill, EnterLobby, SignIn, Depart,
      Leave, Enumerates, Plans, ExactLookup, LowerLookup, UuidText, JoinFound, Collected, T.Escape, T.ClientName,
      StrandingKick, StrandingModes, NameTaken, M.FlagsOf;
    HandleIs(s, id, cmd, x);
    if s.clients[id].status == PendingAuth {
      if cmd.GuestLogin? {
        LoginCollects(s, id, GuestName(cmd.username, x.guestName), Guest, s.conf.guestOptions,
                      s.conf.useGlobal, x.global, s.conf.useGuest, x.local);
      } else if cmd.AgentLogin? {
        if cmd.permissions.Some? {
          LoginCollects(s, id, cmd.nickname, Agent, cmd.permissions.value, s.conf.useGlobal, x.global, s.conf.useStaff,
                        x.local);
        }
      } else if !cmd.DeviceLogin? {
        DisconnectMeaning(s, id, "bad request pre-auth", x.own);
        DepartCollects(s, id);
      }
    } else {
      match cmd
      case JoinChannel(name, target) =>
        JoinCollects(s, id, JoinText(name, target), JoinFound(s, name, target, x.named), x.newId);
      case PartChannel(channel) =>
        if channel in s.channels {
          assert s.channels[channel].id == channel by { OpenInv(s); }
          LeaveCollects(s, id, channel);
        }
      case KickMember(channel, user, reason) => KickCollects(s, id, channel, user, reason);
      case KillClient(user, reason) =>
        KillMeaning(s, id, user, reason, x.order);
        if user in s.clients {
          DepartCollects(s, user);
        }
      case BanIp(ip, reason) => KlineCollects(s, id, ip, reason, x.plan);
      case ChangeModes(channel, modes) => ModesCollect(s, id, channel, modes);
      case ChangeTopic(channel, topic) => TopicCollects(s, id, channel, topic);
      case _ =>
    }
  }

  /** The step strands an empty channel. */
  ghost predicate StrandingStep(s: State, op: Op) {
    op.Issue? && op.id in s.clients && Strands(s, op.id, op.cmd)
  }

  /** From a collected state, a step leads to a collected state exactly if it is neither of the two stranding
      commands. */
  lemma CollectedStep(s: State, op: Op)
    requires Inv(s) && Legal(s, op) && CanAct(s, op) && Collected(s.channels)
    ensures Collected(Apply(s, op).channels) <==> !StrandingStep(s, op)
  {
    hide Inv, Evolves, Handle, Collected, Inspect, PurgeAll, Disconnect, Enumerates, LegalCommand;
    match op
    case Connect(_, _, _, _) =>
    case ReadError(id, reason, order) =>
      if id in s.clients {
        DisconnectMeaning(s, id, reason, order);
        DepartCollects(s, id);
      }
    case Check(now, plan) =>
      InspectKeeps(s, now);
      PlansFit(s, ExpiredIn(s, now), plan);
      FitsAfterInspect(s, Inspect(s, now), now, plan);
      PurgeAllCollects(Inspect(s, now), plan);
    case Issue(id, cmd, x) =>
      if id in s.clients {
        var u := Touch(s, id, x.now);
        TouchKeeps(s, id, x.now);
        LegalAfterTouch(s, id, cmd, x);
        StrandsAfterTouch(s, id, cmd, x.now);
        CommandCollects(u, id, cmd, x);
      }
  }

  lemma StrandsAfterTouch(s: State, id: Uuid, cmd: Command, now: Time)
    requires id in s.clients
    ensures var u := Touch(s, id, now); id in u.clients && (Strands(u, id, cmd) <==> Strands(s, id, cmd))
  {
    hide M.FlagsOf;
  }

  /** In every run without a stranding command, each registered channel has a member or persists. */
  lemma {:induction false} EmptyChannelsCollected(r: Run, i: nat)
    requires IsRun(r) && i < |r.states|
    requires forall k :: 0 <= k < i ==> !StrandingStep(r.states[k], r.ops[k])
    ensures Collected(r.states[i].channels)
  {
    hide Inv, Legal, Apply, CanAct, Settled, Evolves, StrandingStep, Collected, Start;
    if i == 0 {
      LobbiesPersist(r.setup);
    } else {
      EmptyChannelsCollected(r, i - 1);
      RunStep(r, i - 1);
      CollectedStep(r.states[i - 1], r.ops[i - 1]);
    }
  }

  lemma LobbiesPersist(u: Setup)
    ensures Collected(Start(u).channels)
  {
  }
}
