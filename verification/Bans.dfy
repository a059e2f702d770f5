/** Ban enforcement over whole runs. */
module Bans {
  import opened Basics
  import opened Uuids
  import opened Messages
  import opened Machine
  import opened Invariants
  import opened SmallSteps
  import opened Departure
  import opened Handlers
  import opened Steps
  import opened Runs
  import M = Modes
  import T = Text

  predicate Exempt(c: ClientRec) {
    c.kind == Agent || Admin in c.options
  }

  /** No banned address among the clients that bans apply to. */
  ghost predicate BansHold(clients: Clients, bans: seq<Ban>) {
    forall k :: k in clients ==> Exempt(clients[k]) || !Banned(bans, clients[k].ip)
  }

  ghost predicate DistinctBans(bans: seq<Ban>) {
    forall i, j :: 0 <= i < j < |bans| ==> bans[i].ip != bans[j].ip
  }

  /** A ban with this reason can be executed: the kill text that quotes it is not too long. */
  predicate ShortReason(reason: string) {
    |T.Escape(BanReason(reason))| <= 255
  }

  /** Only ban commands change the ban list. */
  lemma {:induction false} BansSame(s: State, op: Op)
    requires Inv(s) && Legal(s, op) && CanAct(s, op)
    requires !(op.Issue? && op.cmd.BanIp?)
    ensures Apply(s, op).bans == s.bans
  {
    hide Inv, Evolves, Banned, BroadcastPart, JoinFound, JoinText, M.Labels, T.Escape;
    match op
    case Connect(_, _, _, _) =>
    case ReadError(id, reason, order) =>
      if id in s.clients {
        TearAllTorn(s, id, order, s.clients[id].name, reason, true);
      }
    case Check(now, plan) =>
      InspectKeeps(s, now);
      PlansFit(s, ExpiredIn(s, now), plan);
      FitsAfterInspect(s, Inspect(s, now), now, plan);
      PurgeAllKeeps(Inspect(s, now), plan);
    case Issue(id, cmd, x) =>
      if id in s.clients {
        CommandBans(Touch(s, id, x.now), id, cmd, x);
      }
  }

  lemma CommandBans(s: State, id: Uuid, cmd: Command, x: Chance)
    requires id in s.clients && !cmd.BanIp?
    ensures Handle(s, id, cmd, x).bans == s.bans
  {
    hide *;
    HandleIs(s, id, cmd, x);
    if s.clients[id].status == PendingAuth {
      match cmd
      case GuestLogin(username) => GuestBans(s, id, GuestName(username, x.guestName), x.global, x.local);
      case AgentLogin(nickname, permissions) => AgentBans(s, id, nickname, permissions, x.global, x.local);
      case _ => DisconnectBans(s, id, "bad request pre-auth", x.own);
    } else {
      match cmd
      case JoinChannel(name, target) =>
        JoinBans(s, id, JoinText(name, target), JoinFound(s, name, target, x.named), x.newId);
      case PartChannel(channel) => PartBans(s, id, channel);
      case KickMember(channel, user, reason) => KickBans(s, id, channel, user, reason);
      case KillClient(user, reason) => KillBans(s, id, user, reason, x.order);
      case ChangeModes(channel, modes) => ModeBans(s, id, channel, modes);
      case ChangeTopic(channel, topic) => TopicBans(s, id, channel, topic);
      case SayText(channel, text) => SayBans(s, id, channel, text);
      case ListChannels => ListBans(s, id);
      case _ =>
    }
  }

  lemma ListBans(s: State, actor: Uuid)
    requires actor in s.clients
    ensures ListTo(s, actor).bans == s.bans
  {
  }

  lemma GuestBans(s: State, id: Uuid, name: string, global: Option<Uuid>, local: Option<Uuid>)
    requires id in s.clients
    ensures AuthGuest(s, id, name, global, local).bans == s.bans
  {
    hide T.ClientName, SignIn, EnterLobby;
  }

  lemma AgentBans(s: State, id: Uuid, name: string, permissions: Option<set<Power>>, global: Option<Uuid>,
                  local: Option<Uuid>)
    requires id in s.clients
    ensures AuthAgent(s, id, name, permissions, global, local).bans == s.bans
  {
    hide T.ClientName, SignIn, EnterLobby;
  }

  lemma DisconnectBans(s: State, id: Uuid, reason: string, order: seq<Uuid>)
    requires id in s.clients
    ensures Disconnect(s, id, reason, order).bans == s.bans
  {
    TearAllTorn(s, id, order, s.clients[id].name, reason, true);
  }

  lemma JoinBans(s: State, actor: Uuid, channel: string, found: Option<Uuid>, newId: Uuid)
    requires actor in s.clients && (found.Some? ==> found.value in s.channels)
    ensures JoinTo(s, actor, channel, found, newId).bans == s.bans
  {
    hide T.ChannelName, LooksLikeV4, Enter, Create, Tell;
    CreateBans(s, actor, channel, newId);
    TellBans(s, actor);
  }

  lemma CreateBans(s: State, actor: Uuid, name: string, newId: Uuid)
    requires actor in s.clients
    ensures Create(s, actor, name, newId).bans == s.bans
  {
    hide Deliver;
  }

  lemma TellBans(s: State, id: Uuid)
    ensures forall code :: Tell(s, id, code).bans == s.bans
  {
  }

  lemma PartBans(s: State, actor: Uuid, cid: Uuid)
    requires actor in s.clients
    ensures PartFrom(s, actor, cid).bans == s.bans
  {
  }

  lemma KickBans(s: State, actor: Uuid, cid: Uuid, user: Uuid, reason: string)
    requires actor in s.clients
    ensures KickFrom(s, actor, cid, user, reason).bans == s.bans
  {
  }

  lemma KillBans(s: State, actor: Uuid, target: Uuid, reason: string, order: seq<Uuid>)
    requires actor in s.clients
    ensures Kill(s, actor, target, reason, order).bans == s.bans
  {
    hide T.Escape;
    if target in s.clients {
      TearAllTorn(s, target, order, s.clients[target].name, "Killed (" + KillReason(reason) + ")", false);
    }
  }

  lemma ModeBans(s: State, actor: Uuid, cid: Uuid, modes: M.U64)
    requires actor in s.clients
    ensures SetModes(s, actor, cid, modes).bans == s.bans
  {
    hide ModesAfter, M.Labels;
  }

  lemma TopicBans(s: State, actor: Uuid, cid: Uuid, topic: string)
    requires actor in s.clients
    ensures SetTopic(s, actor, cid, topic).bans == s.bans
  {
    hide T.Escape;
  }

  lemma SayBans(s: State, actor: Uuid, cid: Uuid, text: string)
    requires actor in s.clients
    ensures Say(s, actor, cid, text).bans == s.bans
  {
    hide T.Escape;
  }

  /** Clients that stay keep their address, and nobody loses an exemption. */
  lemma HoldsWhenBansSame(d: Delta, s: State, t: State)
    requires Inv(s) && Evolves(d, s, t) && BansHold(s.clients, s.bans) && t.bans == s.bans
    requires forall k :: k in t.clients && k !in s.clients ==> !Banned(t.bans, t.clients[k].ip)
    ensures BansHold(t.clients, t.bans)
  {
    hide Inv, Banned, TextsKept, AddressesKept, PingsKept, ChannelsEvolve, ClientIds, ChannelIds, Index, Names, Mail,
      Topics;
    OpenInv(s);
    forall k | k in t.clients ensures Exempt(t.clients[k]) || !Banned(t.bans, t.clients[k].ip) {
      if k in s.clients {
        assert SameClient(d, k, s.clients[k], t.clients[k]) && StandingOf(s.clients[k]);
        assert Exempt(s.clients[k]) || !Banned(s.bans, s.clients[k].ip);
        if Clone(t.clients[k]) == Clone(s.clients[k]) {
          assert t.clients[k].kind == s.clients[k].kind && t.clients[k].options == s.clients[k].options;
        }
      }
    }
  }

  /** Exactly when a ban command leaves the ban enforced: it was refused, or its reason is short enough,
      or everybody with that address is exempt. */
  lemma KlineEnforces(s: State, actor: Uuid, ip: Ip, reason: string, plan: seq<Victim>)
    requires Inv(s) && actor in s.clients && Plans(s, KlineTargets(s, ip), plan) && BansHold(s.clients, s.bans)
    ensures var t := Kline(s, actor, ip, reason, plan);
            BansHold(t.clients, t.bans) <==>
              || s.clients[actor].kind != Agent
              || Banned(s.bans, ip)
              || ShortReason(reason)
              || (forall k :: k in s.clients && s.clients[k].ip == ip ==> Exempt(s.clients[k]))
  {
    hide Inv, Evolves, Kline, Banned;
    KlineKeeps(s, actor, ip, reason, plan);
    PlansFit(s, KlineTargets(s, ip), plan);
    var t := Kline(s, actor, ip, reason, plan);
    if s.clients[actor].kind == Agent && !Banned(s.bans, ip) {
      BannedSnoc(s.bans, Ban(ip, reason, s.clients[actor].name));
      if ShortReason(reason) {
        forall k | k in t.clients ensures Exempt(t.clients[k]) || !Banned(t.bans, t.clients[k].ip) {
          assert k in s.clients && (k in KlineTargets(s, ip) ==> Admin in s.clients[k].options);
        }
      } else {
        assert t.clients == s.clients;
        if k :| k in s.clients && s.clients[k].ip == ip && !Exempt(s.clients[k]) {
          assert Banned(t.bans, t.clients[k].ip);
        }
      }
    }
  }

  /** A reason of 247 characters is one too many: together with the words around it the text has 256. The ban is
      entered, and a client with the address that bans apply to stays registered. */
  lemma LongReasonSpares(s: State, actor: Uuid, victim: Uuid, reason: string, plan: seq<Victim>)
    requires Inv(s) && actor in s.clients && s.clients[actor].kind == Agent && BansHold(s.clients, s.bans)
    requires victim in s.clients && !Exempt(s.clients[victim])
    requires !Banned(s.bans, s.clients[victim].ip) && Plans(s, KlineTargets(s, s.clients[victim].ip), plan)
    requires reason == seq(247, i => 'x')
    ensures var t := Kline(s, actor, s.clients[victim].ip, reason, plan);
            && victim in t.clients && Banned(t.bans, t.clients[victim].ip) && !Exempt(t.clients[victim])
            && !BansHold(t.clients, t.bans)
  {
    var ip := s.clients[victim].ip;
    var t := Kline(s, actor, ip, reason, plan);
    assert |BanReason(reason)| == 256;
    T.EscapeMeaning(BanReason(reason));
    hide Inv, Evolves, Kline, Plans, KlineTargets, BanReason;
    assert !ShortReason(reason) && BanKills(s, actor, ip, reason, plan) == {};
    KlineKeeps(s, actor, ip, reason, plan);
    BannedSnoc(s.bans, Ban(ip, reason, s.clients[actor].name));
    assert s.clients - {} == s.clients;
  }

  lemma BannedSnoc(bans: seq<Ban>, b: Ban)
    ensures forall ip :: Banned(bans + [b], ip) <==> Banned(bans, ip) || ip == b.ip
  {
    forall ip ensures Banned(bans + [b], ip) <==> Banned(bans, ip) || ip == b.ip {
      if Banned(bans, ip) {
        var i :| 0 <= i < |bans| && bans[i].ip == ip;
        assert (bans + [b])[i].ip == ip;
      }
      assert (bans + [b])[|bans|] == b;
    }
  }

  lemma DistinctStep(bans: seq<Ban>, b: Ban)
    requires DistinctBans(bans) && !Banned(bans, b.ip)
    ensures DistinctBans(bans + [b])
  {
  }

  lemma BansStep(s: State, op: Op)
    requires Inv(s) && Legal(s, op) && CanAct(s, op) && BansHold(s.clients, s.bans)
    requires op.Issue? && op.cmd.BanIp? ==> ShortReason(op.cmd.reason)
    ensures BansHold(Apply(s, op).clients, Apply(s, op).bans)
    ensures DistinctBans(s.bans) ==> DistinctBans(Apply(s, op).bans)
  {
    hide Inv, Evolves, Banned, ShortReason, Handle, HealthCheck, Disconnect, Kline, Plans, LegalCommand, Standing;
    if op.Issue? && op.cmd.BanIp? {
      if op.id in s.clients {
        var u := Touch(s, op.id, op.x.now);
        TouchKeeps(s, op.id, op.x.now);
        LegalAfterTouch(s, op.id, op.cmd, op.x);
        HoldsWhenBansSame(Changed(op.id), s, u);
        BanCommandStep(u, op.id, op.cmd, op.x);
      }
    } else {
      BansSame(s, op);
      StepKeeps(s, op);
      NewcomersAllowed(s, op);
      HoldsWhenBansSame(DeltaOf(s, op), s, Apply(s, op));
    }
  }

  lemma BanCommandStep(s: State, id: Uuid, cmd: Command, x: Chance)
    requires Inv(s) && id in s.clients && cmd.BanIp? && LegalCommand(s, id, cmd, x) && ShortReason(cmd.reason)
    requires BansHold(s.clients, s.bans)
    ensures var t := Handle(s, id, cmd, x);
            BansHold(t.clients, t.bans) && (DistinctBans(s.bans) ==> DistinctBans(t.bans))
  {
    hide Inv, Evolves, Banned, ShortReason, Kline, Disconnect, Plans, DistinctBans;
    if s.clients[id].status == PendingAuth {
      DisconnectMeaning(s, id, "bad request pre-auth", x.own);
      DepartParts(s, id);
    } else {
      KlineEnforces(s, id, cmd.ip, cmd.reason, x.plan);
      KlineKeeps(s, id, cmd.ip, cmd.reason, x.plan);
      if !Banned(s.bans, cmd.ip) && DistinctBans(s.bans) {
        DistinctStep(s.bans, Ban(cmd.ip, cmd.reason, s.clients[id].name));
      }
    }
  }

  lemma NewcomersAllowed(s: State, op: Op)
    requires Inv(s) && Evolves(DeltaOf(s, op), s, Apply(s, op))
    ensures forall k :: k in Apply(s, op).clients && k !in s.clients ==> !Banned(s.bans, Apply(s, op).clients[k].ip)
  {
    hide Inv, Handle, HealthCheck, Disconnect, Banned, ChannelsEvolve, TextsKept, AddressesKept, PingsKept;
    match op
    case Connect(_, _, _, _) =>
    case Issue(id, cmd, x) => forall k | k in Apply(s, op).clients && k !in s.clients ensures false { }
    case ReadError(_, _, _) =>
    case Check(now, plan) =>
  }

  /** In every run whose ban reasons are short enough, no client that bans apply to has a banned address, and the
      list never holds an address twice if the loaded one did not. */
  lemma {:induction false} BansEnforced(r: Run, i: nat)
    requires IsRun(r) && i < |r.states|
    requires forall k :: 0 <= k < i && r.ops[k].Issue? && r.ops[k].cmd.BanIp? ==> ShortReason(r.ops[k].cmd.reason)
    ensures BansHold(r.states[i].clients, r.states[i].bans)
    ensures DistinctBans(r.setup.bans) ==> DistinctBans(r.states[i].bans)
  {
    hide Inv, Legal, Apply, Evolves, ShortReason, BansHold, DistinctBans, CanAct, Settled;
    if i == 0 {
      NobodyBanned(r.setup);
    } else {
      BansEnforced(r, i - 1);
      RunStep(r, i - 1);
      BansStep(r.states[i - 1], r.ops[i - 1]);
    }
  }

  lemma NobodyBanned(u: Setup)
    ensures BansHold(Start(u).clients, Start(u).bans) && Start(u).bans == u.bans
  {
  }
}
