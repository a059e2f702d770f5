/** The channel registry over runs: safe unregistration, permanent lobbies and agent-only channels. */
module Registry {
  import opened Basics
  import opened Uuids
  import opened Messages
  import opened Machine
  import opened Invariants
  import opened SmallSteps
  import opened Departure
  import opened Handlers
  import opened Steps
  import opened Runs
  import opened Collection
  import opened RoundTrips
  import M = Modes
  import T = Text

  // Unregistration

  /** The client leaves the channel in this step: by parting from it, or because it is no longer registered. */
  predicate Leaves(op: Op, t: State, c: Uuid, m: Uuid) {
    m !in t.clients || (op.Issue? && op.cmd.PartChannel? && op.cmd.channel == c && op.id == m)
  }

  /** A kick by an authenticated client. */
  predicate KickStep(s: State, op: Op) {
    op.Issue? && op.cmd.KickMember? && op.id in s.clients && s.clients[op.id].status != PendingAuth
  }

  /** No step unregisters a channel that is persistent, or that keeps a member. */
  lemma UnregisteredIsEmpty(s: State, op: Op, c: Uuid)
    requires Inv(s) && Legal(s, op) && CanAct(s, op)
    requires c in s.channels && c !in Apply(s, op).channels
    ensures M.Persist !in s.channels[c].options
    ensures forall m :: m in s.channels[c].members ==> Leaves(op, Apply(s, op), c, m)
  {
    var t, d := Apply(s, op), DeltaOf(s, op);
    hide Inv, Legal, Apply, CanAct, TextsKept, AddressesKept, PingsKept, ClientsEvolve, DeltaOf;
    StepKeeps(s, op);
    assert Dropped(d, c, s.channels[c]);
    SettingsStepsKeep(s, op);
    PartStepKeeps(s, op, c);
    OutsLeave(s, op, c);
  }

  /** Parting from one channel keeps all others registered. */
  lemma PartStepKeeps(s: State, op: Op, c: Uuid)
    ensures PartsElsewhere(s, op, c) && c in s.channels ==> c in Apply(s, op).channels
  {
    if op.Issue? && op.cmd.PartChannel? && op.id in s.clients && op.cmd.channel in s.channels {
      var u := Touch(s, op.id, op.x.now);
      assert u.channels == s.channels && u.clients[op.id].status == s.clients[op.id].status;
      HandleIs(u, op.id, op.cmd, op.x);
      LeaveChannels(u, op.id, op.cmd.channel);
      hide Handle, Leave;
    }
  }

  /** Mode changes, topics and kicks never touch the set of registered channels. */
  lemma SettingsStepsKeep(s: State, op: Op)
    ensures DeltaOf(s, op).tuned != {} || KickStep(s, op)
            ==> Apply(s, op).channels.Keys == s.channels.Keys
  {
    hide T.Escape, M.Labels, ModesAfter, Disconnect, Kline, Kill, JoinTo, PartFrom, AuthGuest, AuthAgent, HealthCheck,
      Accept, BanKills, MayKill, UuidText, JoinFound;
    if op.Issue? && op.id in s.clients {
      HandleIs(Touch(s, op.id, op.x.now), op.id, op.cmd, op.x);
    }
  }

  /** A part from another channel by an authenticated client. */
  predicate PartsElsewhere(s: State, op: Op, c: Uuid) {
    && op.Issue? && op.cmd.PartChannel? && op.cmd.channel != c
    && op.id in s.clients && s.clients[op.id].status != PendingAuth
  }

  /** Whoever a step may take out of channels has left them for good, except in a kick. */
  lemma OutsLeave(s: State, op: Op, c: Uuid)
    requires Inv(s) && Legal(s, op) && CanAct(s, op)
    ensures KickStep(s, op) || PartsElsewhere(s, op, c)
            || forall m :: m in DeltaOf(s, op).outs ==> Leaves(op, Apply(s, op), c, m)
  {
    hide Inv, Evolves, Handle, Disconnect, Enumerates, PurgeAll, Inspect, Kline, Kill, BanKills, LegalCommand;
    match op
    case Connect(_, _, _, _) =>
    case ReadError(id, reason, order) =>
      if id in s.clients {
        DisconnectMeaning(s, id, reason, order);
        DepartParts(s, id);
      }
    case Check(now, plan) =>
      CheckKeeps(s, now, plan);
      PlansFit(s, ExpiredIn(s, now), plan);
    case Issue(id, cmd, x) =>
      if id in s.clients {
        var u := Touch(s, id, x.now);
        TouchKeeps(s, id, x.now);
        LegalAfterTouch(s, id, cmd, x);
        DeltaAfterTouch(s, id, cmd, x);
        CommandOutsLeave(u, id, cmd, x, c);
      }
  }

  lemma CommandOutsLeave(s: State, id: Uuid, cmd: Command, x: Chance, c: Uuid)
    requires Inv(s) && id in s.clients && LegalCommand(s, id, cmd, x)
    ensures (cmd.KickMember? && s.clients[id].status != PendingAuth) || PartsElsewhere(s, Issue(id, cmd, x), c)
            || forall m :: m in CommandDelta(s, id, cmd, x).outs ==>
                 Leaves(Issue(id, cmd, x), Handle(s, id, cmd, x), c, m)
  {
    hide Inv, Evolves, AuthGuest, AuthAgent, JoinTo, PartFrom, KickFrom, SetModes, SetTopic, Say, Disconnect, Kline,
      Kill, Enumerates, BanKills, Plans, ExactLookup, LowerLookup, UuidText, JoinFound;
    HandleIs(s, id, cmd, x);
    if s.clients[id].status == PendingAuth {
      if !cmd.GuestLogin? && !cmd.AgentLogin? && !cmd.DeviceLogin? {
        DisconnectMeaning(s, id, "bad request pre-auth", x.own);
        DepartParts(s, id);
      }
    } else if cmd.KillClient? {
      KillMeaning(s, id, cmd.user, cmd.reason, x.order);
      if MayKill(s, id, cmd.user, cmd.reason) {
        DepartParts(s, cmd.user);
      }
    } else if cmd.BanIp? {
      KlineKeeps(s, id, cmd.ip, cmd.reason, x.plan);
    }
  }

  // Settings and lobbies

  /** An agent takes Persist away from the channel. */
  predicate ClearsPersist(s: State, op: Op, c: Uuid) {
    && op.Issue? && op.cmd.ChangeModes? && op.cmd.channel == c
    && op.id in s.clients && s.clients[op.id].kind == Agent
    && M.Persist !in M.FlagsOf(op.cmd.modes)
  }

  /** A command of an authenticated client on the settings of the channel. */
  predicate SettingsStep(s: State, op: Op, c: Uuid) {
    && op.Issue? && op.id in s.clients && s.clients[op.id].status != PendingAuth
    && ((op.cmd.ChangeModes? && op.cmd.channel == c) || (op.cmd.ChangeTopic? && op.cmd.channel == c))
  }

  lemma TunedIsSettings(s: State, op: Op, c: Uuid)
    requires c in DeltaOf(s, op).tuned
    ensures SettingsStep(s, op, c)
  {
    hide BanKills, MayKill;
  }

  /** What a settings command does to the channel: modes as permitted, the topic escaped, and nothing without
      permission. */
  lemma SettingsMeaning(s: State, op: Op, c: Uuid)
    requires SettingsStep(s, op, c) && c in s.channels
    ensures var t, ch, who := Apply(s, op), s.channels[c], s.clients[op.id];
            && t.channels.Keys == s.channels.Keys
            && (who.kind != Agent && ch.owner != Some(who.id) && who.id != NIL ==> t.channels == s.channels)
            && (!Owns(ch, who) ==> t.channels == s.channels)
            && (Owns(ch, who) && op.cmd.ChangeModes? ==>
                t.channels[c] == ch.(options := ModesAfter(ch, who, op.cmd.modes)))
            && (who.kind == Agent || ch.owner == Some(who.id) ==> Owns(ch, who))
            && (op.cmd.ChangeTopic? ==> t.channels[c] == ch.(topic := t.channels[c].topic))
  {
    var u := Touch(s, op.id, op.x.now);
    hide T.Escape, M.Labels, M.FlagsOf, Handle;
    HandleIs(u, op.id, op.cmd, op.x);
    assert Owns(s.channels[c], u.clients[op.id]) == Owns(s.channels[c], s.clients[op.id]);
    assert op.cmd.ChangeModes? ==>
        ModesAfter(s.channels[c], u.clients[op.id], op.cmd.modes) ==
          ModesAfter(s.channels[c], s.clients[op.id], op.cmd.modes);
    hide ModesAfter, Owns;
  }

  /** Persist can only be lost through an agent's mode change; until then the channel stays registered. */
  lemma PersistStays(s: State, op: Op, c: Uuid)
    requires Inv(s) && Legal(s, op) && CanAct(s, op)
    requires c in s.channels && M.Persist in s.channels[c].options && !ClearsPersist(s, op, c)
    ensures var t := Apply(s, op);
            && c in t.channels && M.Persist in t.channels[c].options
            && t.channels[c].owner == s.channels[c].owner && t.channels[c].name == s.channels[c].name
  {
    hide Inv, Legal, Apply, CanAct, TextsKept, AddressesKept, PingsKept, ClientsEvolve, DeltaOf, M.FlagsOf;
    StepKeeps(s, op);
    if c !in Apply(s, op).channels {
      UnregisteredIsEmpty(s, op, c);
    } else if c in DeltaOf(s, op).tuned {
      TunedIsSettings(s, op, c);
      SettingsMeaning(s, op, c);
    } else {
      assert SameChannel(DeltaOf(s, op), c, s.channels[c], Apply(s, op).channels[c]);
    }
  }

  /** A channel without an owner changes its modes or topic only by an agent's command. */
  lemma OwnerlessSettings(s: State, op: Op, c: Uuid)
    requires Inv(s) && Legal(s, op) && CanAct(s, op)
    requires c in s.channels && c in Apply(s, op).channels && s.channels[c].owner == None
    requires Apply(s, op).channels[c].options != s.channels[c].options
             || Apply(s, op).channels[c].topic != s.channels[c].topic
    ensures SettingsStep(s, op, c) && s.clients[op.id].kind == Agent
  {
    hide Inv, Legal, Apply, CanAct, TextsKept, AddressesKept, PingsKept, ClientsEvolve, DeltaOf, M.FlagsOf;
    StepKeeps(s, op);
    assert SameChannel(DeltaOf(s, op), c, s.channels[c], Apply(s, op).channels[c]);
    TunedIsSettings(s, op, c);
    SettingsMeaning(s, op, c);
    IdIssued(s, op.id);
  }

  /** A default lobby of the configuration. */
  predicate IsLobby(u: Setup, c: Uuid, name: string) {
    || (u.conf.useGlobal && c == u.global && name == GLOBAL_LOBBY)
    || (u.conf.useStaff && c == u.staff && name == STAFF_LOBBY)
    || (u.conf.useGuest && c == u.guest && name == GUEST_LOBBY)
  }

  lemma LobbyAtStart(u: Setup, c: Uuid, name: string)
    requires SetupFine(u) && IsLobby(u, c, name)
    ensures var s := Start(u);
            && c in s.channels && s.channels[c].name == name && s.channels[c].owner == None
            && M.Persist in s.channels[c].options && s.channels[c].members == map[]
            && (name == STAFF_LOBBY ==> M.AgentOnly in s.channels[c].options)
  {
  }

  /** As long as no agent clears its Persist flag, a default lobby keeps its id and its name, and never gets an
      owner. */
  lemma {:induction false} LobbiesStay(r: Run, i: nat, c: Uuid, name: string)
    requires IsRun(r) && i < |r.states| && IsLobby(r.setup, c, name)
    requires forall k :: 0 <= k < i ==> !ClearsPersist(r.states[k], r.ops[k], c)
    ensures var s := r.states[i];
            && c in s.channels && s.channels[c].name == name && s.channels[c].owner == None
            && M.Persist in s.channels[c].options
  {
    hide Inv, Legal, Apply, CanAct, Settled, Evolves, ClearsPersist, IsLobby, Start;
    if i == 0 {
      LobbyAtStart(r.setup, c, name);
    } else {
      LobbiesStay(r, i - 1, c, name);
      RunStep(r, i - 1);
      PersistStays(r.states[i - 1], r.ops[i - 1], c);
    }
  }

  // Agent-only channels

  ghost predicate AllAgents(ch: ChannelRec) {
    forall m :: m in ch.members ==> ch.members[m].kind == Agent
  }

  /** A guest gets in and enters the channel as one of the two lobbies of guests. */
  predicate GuestEnters(s: State, op: Op, c: Uuid) {
    && op.Issue? && op.cmd.GuestLogin? && op.id in s.clients && s.clients[op.id].status == PendingAuth
    && s.conf.allowGuests
    && (var name := GuestName(op.cmd.username, op.x.guestName); !NameTaken(s, name) && T.ClientName(name))
    && ((s.conf.useGlobal && op.x.global == Some(c)) || (s.conf.useGuest && op.x.local == Some(c)))
  }

  lemma GuestsEnterLobbies(s: State, op: Op, c: Uuid)
    requires Legal(s, op) && GuestEnters(s, op, c)
    ensures c in s.channels && OpenLobby(s.channels[c].name)
  {
    hide ClockOk, NameTaken, T.ClientName, Enumerates;
  }

  lemma JoinRespectsFlag(s: State, actor: Uuid, channel: string, found: Option<Uuid>, newId: Uuid, c: Uuid)
    requires actor in s.clients && newId !in s.channels && (found.Some? ==> found.value in s.channels)
    requires c in s.channels && M.AgentOnly in s.channels[c].options && s.clients[actor].kind != Agent
    ensures JoinTo(s, actor, channel, found, newId).channels[c].members == s.channels[c].members
  {
    hide Enter, Create, LooksLikeV4, T.ChannelName;
    CreatedChannels(s, actor, channel, newId);
    if found.Some? {
      EnterChannels(s, actor, found.value, false);
    }
  }

  lemma JoinKeepsKinds(s: State, actor: Uuid, channel: string, found: Option<Uuid>, newId: Uuid)
    requires actor in s.clients && (found.Some? ==> found.value in s.channels)
    ensures var t := JoinTo(s, actor, channel, found, newId);
            actor in t.clients && t.clients[actor].kind == s.clients[actor].kind
  {
    hide Enter, LooksLikeV4, T.ChannelName, Deliver, M.Labels, BroadcastJoin;
    if found.Some? {
      EnterChannels(s, actor, found.value, false);
    }
  }

  /** Who gains a membership of an agent-only channel is an agent, or a guest that the login puts there. */
  lemma NewcomerIsAgent(s: State, id: Uuid, cmd: Command, x: Chance, c: Uuid)
    requires Inv(s) && id in s.clients && LegalCommand(s, id, cmd, x)
    requires c in s.channels && M.AgentOnly in s.channels[c].options && id !in s.channels[c].members
    requires cmd.JoinChannel? || cmd.GuestLogin? || cmd.AgentLogin?
    ensures var t := Handle(s, id, cmd, x);
            c in t.channels && id in t.channels[c].members ==>
              id in t.clients && (t.clients[id].kind == Agent || GuestEnters(s, Issue(id, cmd, x), c))
    ensures GuestEnters(s, Issue(id, cmd, x), c) ==>
              var t := Handle(s, id, cmd, x);
              c in t.channels && id in t.channels[c].members && id in t.clients && t.clients[id].kind == Guest
  {
    var op := Issue(id, cmd, x);
    assert s.clients[id].status == PendingAuth ==> s.clients[id].kind == Unknown by { StandingAt(s, id); }
    assert GuestEnters(s, op, c) <==>
           && cmd.GuestLogin? && s.clients[id].status == PendingAuth && s.conf.allowGuests
           && !NameTaken(s, GuestName(cmd.username, x.guestName)) && T.ClientName(GuestName(cmd.username, x.guestName))
           && ((s.conf.useGlobal && x.global == Some(c)) || (s.conf.useGuest && x.local == Some(c)));
    hide *;
    CommandChoices(s, id, cmd, x);
    HandleIs(s, id, cmd, x);
    if s.clients[id].status == PendingAuth && cmd.GuestLogin? {
      GuestLoginMeaning(s, id, GuestName(cmd.username, x.guestName), x.global, x.local, c);
    } else if s.clients[id].status == PendingAuth && cmd.AgentLogin? {
      AgentLoginMeaning(s, id, cmd.nickname, cmd.permissions, x.global, x.local, c);
    } else if s.clients[id].status != PendingAuth && cmd.JoinChannel? {
      NewChannelId(s, x.newId);
      var channel, found := JoinText(cmd.name, cmd.target), JoinFound(s, cmd.name, cmd.target, x.named);
      JoinKeepsKinds(s, id, channel, found, x.newId);
      if s.clients[id].kind != Agent {
        JoinRespectsFlag(s, id, channel, found, x.newId, c);
      }
    } else if s.clients[id].status == PendingAuth {
      DisconnectMeaning(s, id, "bad request pre-auth", x.own);
      DepartMeaning(s, id, c);
    }
  }

  lemma GainsOnly(d: Delta, s: State, t: State, c: Uuid)
    requires Evolves(d, s, t) && c in s.channels && c in t.channels
    ensures forall m :: m in t.channels[c].members ==>
              if m in s.channels[c].members then t.channels[c].members[m] == s.channels[c].members[m] else m in d.ins
  {
    assert SameChannel(d, c, s.channels[c], t.channels[c]);
    forall m | m in t.channels[c].members && m !in s.channels[c].members ensures m in d.ins {
      assert m in t.channels[c].members.Keys;
    }
  }

  predicate EntryCommand(s: State, op: Op) {
    op.Issue? && op.id in s.clients && (op.cmd.JoinChannel? || op.cmd.GuestLogin? || op.cmd.AgentLogin?)
  }

  lemma OnlyEntriesGain(s: State, op: Op)
    ensures !EntryCommand(s, op) ==> DeltaOf(s, op).ins == {}
  {
    hide BanKills, MayKill;
  }

  lemma GuestsAreEntries(s: State, op: Op, c: Uuid)
    requires Inv(s) && c in s.channels && GuestEnters(s, op, c)
    ensures EntryCommand(s, op) && op.id !in s.channels[c].members
  {
    hide Inv, NameTaken, T.ClientName;
    StandingAt(s, op.id);
    UnknownIsNowhere(s, op.id);
  }

  lemma EntersAfterTouch(s: State, op: Op, c: Uuid)
    requires op.Issue? && op.id in s.clients
    ensures var u := Touch(s, op.id, op.x.now); GuestEnters(u, op, c) <==> GuestEnters(s, op, c)
  {
    var u := Touch(s, op.id, op.x.now);
    hide T.ClientName, GuestName;
    if op.cmd.GuestLogin? {
      TakenAfterTouch(s, op.id, op.x.now, GuestName(op.cmd.username, op.x.guestName));
    }
  }

  lemma TakenAfterTouch(s: State, id: Uuid, now: Time, name: string)
    requires id in s.clients
    ensures NameTaken(Touch(s, id, now), name) <==> NameTaken(s, name)
  {
    var u := Touch(s, id, now);
    assert forall k :: k in s.clients ==> k in u.clients && u.clients[k].name == s.clients[k].name;
  }

  lemma EntryStep(s: State, op: Op, c: Uuid)
    requires Inv(s) && Legal(s, op) && EntryCommand(s, op)
    requires c in s.channels && M.AgentOnly in s.channels[c].options && op.id !in s.channels[c].members
    ensures var t := Apply(s, op);
            && (c in t.channels && op.id in t.channels[c].members ==>
                  op.id in t.clients && (t.clients[op.id].kind == Agent || GuestEnters(s, op, c)))
            && (GuestEnters(s, op, c) ==>
                  c in t.channels && op.id in t.channels[c].members && op.id in t.clients
                    && t.clients[op.id].kind == Guest)
  {
    var u := Touch(s, op.id, op.x.now);
    assert u.channels == s.channels && Apply(s, op) == Handle(u, op.id, op.cmd, op.x);
    hide Inv, Legal, GuestEnters, Handle, LegalCommand, ClockOk;
    assert LegalCommand(s, op.id, op.cmd, op.x) by { IssueIsLegal(s, op); }
    TouchKeeps(s, op.id, op.x.now);
    LegalAfterTouch(s, op.id, op.cmd, op.x);
    EntersAfterTouch(s, op, c);
    NewcomerIsAgent(u, op.id, op.cmd, op.x, c);
    assert op == Issue(op.id, op.cmd, op.x);
  }

  lemma IssueIsLegal(s: State, op: Op)
    requires Legal(s, op) && op.Issue? && op.id in s.clients
    ensures LegalCommand(s, op.id, op.cmd, op.x)
  {
  }

  lemma MemberKind(s: State, c: Uuid, m: Uuid)
    requires Inv(s) && c in s.channels && m in s.channels[c].members && m in s.clients
    ensures s.channels[c].members[m].kind == s.clients[m].kind
  {
    OpenInv(s);
    assert Listed(s.clients, c, s.channels[c]);
  }

  /** Exactly when a step lets somebody who is no agent into an agent-only channel of agents. */
  lemma AgentsOnlyExactly(s: State, op: Op, c: Uuid)
    requires Inv(s) && Legal(s, op) && CanAct(s, op)
    requires c in s.channels && M.AgentOnly in s.channels[c].options && AllAgents(s.channels[c])
    requires c in Apply(s, op).channels
    ensures AllAgents(Apply(s, op).channels[c]) <==> !GuestEnters(s, op, c)
  {
    var t := Apply(s, op);
    hide Inv, Legal, Apply, CanAct, Evolves, DeltaOf, GuestEnters;
    StepKeeps(s, op);
    OnlyActorEnters(s, op);
    OnlyEntriesGain(s, op);
    GainsOnly(DeltaOf(s, op), s, t, c);
    if GuestEnters(s, op, c) {
      GuestsAreEntries(s, op, c);
    }
    if EntryCommand(s, op) && op.id !in s.channels[c].members {
      EntryStep(s, op, c);
      if op.id in t.channels[c].members {
        MemberKind(t, c, op.id);
      }
    }
  }

  /** Once a channel is agent-only and holds only agents, that stays so while the flag is set; for the two lobbies that
      guests enter at login, as long as none does. */
  lemma {:induction false} AgentOnlyCloses(r: Run, i: nat, j: nat, c: Uuid)
    requires IsRun(r) && i <= j < |r.states|
    requires c in r.states[i].channels && AllAgents(r.states[i].channels[c])
    requires forall k :: i <= k < j && c in r.states[k].channels ==> M.AgentOnly in r.states[k].channels[c].options
    requires OpenLobby(r.states[i].channels[c].name) ==>
             forall k :: i <= k < j ==> !GuestEnters(r.states[k], r.ops[k], c)
    ensures c in r.states[j].issued
    ensures c in r.states[j].channels ==>
              AllAgents(r.states[j].channels[c]) && r.states[j].channels[c].name == r.states[i].channels[c].name
  {
    hide Inv, Legal, Apply, CanAct, Settled, Evolves, AllAgents, GuestEnters, OpenLobby;
    if i == j {
      RunKeeps(r, j);
      ChannelIssued(r.states[j], c);
    } else {
      var s, op := r.states[j - 1], r.ops[j - 1];
      AgentOnlyCloses(r, i, j - 1, c);
      RunStep(r, j - 1);
      KeptChannel(DeltaOf(s, op), s, r.states[j], c);
      if c in r.states[j].channels {
        AgentsOnlyExactly(s, op, c);
        if GuestEnters(s, op, c) {
          GuestsEnterLobbies(s, op, c);
        }
      }
    }
  }

  lemma ChannelIssued(s: State, c: Uuid)
    requires Inv(s) && c in s.channels
    ensures c in s.issued
  {
  }

  lemma KeptChannel(d: Delta, s: State, t: State, c: Uuid)
    requires Evolves(d, s, t) && c in s.issued
    ensures c in t.issued
    ensures c in t.channels ==> c in s.channels && t.channels[c].name == s.channels[c].name
  {
  }

  /** In particular the Staff Lobby, from startup on. */
  lemma StaffLobbyIsForAgents(r: Run, j: nat)
    requires IsRun(r) && j < |r.states| && r.setup.conf.useStaff
    requires forall k :: 0 <= k < j && r.setup.staff in r.states[k].channels
               ==> M.AgentOnly in r.states[k].channels[r.setup.staff].options
    ensures r.setup.staff in r.states[j].channels ==> AllAgents(r.states[j].channels[r.setup.staff])
  {
    hide Inv, Legal, Apply, Settled, Evolves, Start;
    LobbyAtStart(r.setup, r.setup.staff, STAFF_LOBBY);
    AgentOnlyCloses(r, 0, j, r.setup.staff);
  }
}
