/** Whole steps of the machine: what each may change, and exactly when it keeps the invariant. */
module Steps {
  import opened Basics
  import opened Uuids
  import opened Messages
  import opened Machine
  import opened Invariants
  import opened SmallSteps
  import opened Departure
  import opened Handlers
  import M = Modes
  import T = Text

  function CommandDelta(s: State, id: Uuid, cmd: Command, x: Chance): Delta
    requires id in s.clients
  {
    if s.clients[id].status == PendingAuth then
      if cmd.GuestLogin? || cmd.AgentLogin? then Entered(id) else if cmd.DeviceLogin? then STILL else Gone(id)
    else
      match cmd
      case JoinChannel(_, _) => Made(id, x.newId)
      case PartChannel(_) => Gone(id)
      case KickMember(_, user, _) => Gone(user)
      case KillClient(user, reason) => KillDelta(s, id, user, reason)
      case BanIp(ip, reason) => Left(BanKills(s, id, ip, reason, x.plan))
      case ChangeModes(channel, _) => Tuned(channel)
      case ChangeTopic(channel, _) => Tuned(channel)
      case SayText(_, _) => STILL.(loud := true)
      case _ => STILL
  }

  /** What a step may change. */
  function DeltaOf(s: State, op: Op): Delta {
    match op
    case Connect(id, _, _, _) => Arrived(id)
    case Issue(id, cmd, x) => if id in s.clients then Plus(Changed(id), CommandDelta(s, id, cmd, x)) else STILL
    case ReadError(id, _, _) => Gone(id)
    case Check(now, plan) => Plus(Inspected(ExpiredIn(s, now) + PingedIn(s, now)), Left(Others(plan)))
  }

  /** A client that was never authenticated, but is marked as closing or as a zombie so that its queued commands are
      no longer taken for logins, joins a channel that is open to everybody. */
  predicate Intrudes(s: State, id: Uuid, cmd: Command, x: Chance)
    requires id in s.clients
  {
    && s.clients[id].status != PendingAuth && s.clients[id].kind == Unknown && cmd.JoinChannel?
    && var found := JoinFound(s, cmd.name, cmd.target, x.named);
       found.Some?
       && M.AgentOnly !in s.channels[found.value].options && M.InviteOnly !in s.channels[found.value].options
  }

  /** Clients in the middle of a teardown may act as well, except for that one command. */
  predicate CanAct(s: State, op: Op) {
    op.Issue? && op.id in s.clients ==> !Intrudes(s, op.id, op.cmd, op.x)
  }

  /** Only the client that issues a command can gain memberships in it. */
  lemma OnlyActorEnters(s: State, op: Op)
    ensures DeltaOf(s, op).ins <= if op.Issue? then {op.id} else {}
  {
  }

  lemma PlansFit(s: State, all: set<Uuid>, plan: seq<Victim>)
    requires Plans(s, all, plan)
    ensures PlanFits(s, plan) && Others(plan) == all
  {
  }

  /** The choices stay legal when the issuer's timestamps were updated. */
  lemma LegalAfterTouch(s: State, id: Uuid, cmd: Command, x: Chance)
    requires id in s.clients && LegalCommand(s, id, cmd, x)
    ensures var t := Touch(s, id, x.now); id in t.clients && LegalCommand(t, id, cmd, x)
  {
    var t := Touch(s, id, x.now);
    hide Enumerates, ExactLookup, LowerLookup, UnusedId;
    assert forall k :: k in s.clients ==> k in t.clients && t.clients[k].channels == s.clients[k].channels;
    LookupFrame(s, t, GLOBAL_LOBBY, x.global);
    if cmd.GuestLogin? {
      LookupFrame(s, t, GUEST_LOBBY, x.local);
    } else if cmd.AgentLogin? {
      LookupFrame(s, t, STAFF_LOBBY, x.local);
    } else if cmd.JoinChannel? {
      NewIdFrame(s, t, x.newId);
      if cmd.name != "" {
        LowerFrame(s, t, cmd.name, x.named);
      }
    } else if cmd.BanIp? {
      assert KlineTargets(t, cmd.ip) == KlineTargets(s, cmd.ip);
    }
  }

  lemma NewIdFrame(s: State, t: State, id: Uuid)
    requires UnusedId(s, id) && t.issued == s.issued
    ensures UnusedId(t, id)
  {
  }

  lemma LowerFrame(s: State, t: State, name: string, found: Option<Uuid>)
    requires LowerLookup(s, name, found) && t.channels == s.channels
    ensures LowerLookup(t, name, found)
  {
  }

  lemma StandingAt(s: State, id: Uuid)
    requires Inv(s) && id in s.clients
    ensures StandingOf(s.clients[id])
  {
  }

  /** The status of the issuer can only become Connected. */
  predicate StatusFine(s: State, t: State, id: Uuid)
    requires id in s.clients
  {
    id in t.clients ==> t.clients[id].status == s.clients[id].status || t.clients[id].status == Connected
  }

  lemma LoginKeeps(s: State, id: Uuid, cmd: Command, x: Chance)
    requires Inv(s) && id in s.clients && LegalCommand(s, id, cmd, x) && s.clients[id].status == PendingAuth
    ensures var t := Handle(s, id, cmd, x);
            Inv(t) && Evolves(CommandDelta(s, id, cmd, x), s, t) && StatusFine(s, t, id)
  {
    hide Inv, Evolves, AuthGuest, AuthAgent, Disconnect, ExactLookup, Enumerates;
    StandingAt(s, id);
    match cmd
    case GuestLogin(username) => AuthGuestKeeps(s, id, GuestName(username, x.guestName), x.global, x.local);
    case AgentLogin(nickname, permissions) => AuthAgentKeeps(s, id, nickname, permissions, x.global, x.local);
    case DeviceLogin => Unmoved(s);
    case _ =>
      DisconnectMeaning(s, id, "bad request pre-auth", x.own);
      DepartParts(s, id);
  }

  /** What a legal command says about its choices. */
  lemma CommandChoices(s: State, id: Uuid, cmd: Command, x: Chance)
    requires id in s.clients && LegalCommand(s, id, cmd, x)
    ensures Enumerates(x.own, s.clients[id].channels)
    ensures ExactLookup(s, GLOBAL_LOBBY, x.global)
    ensures cmd.GuestLogin? ==> ExactLookup(s, GUEST_LOBBY, x.local)
    ensures cmd.AgentLogin? ==> ExactLookup(s, STAFF_LOBBY, x.local)
    ensures cmd.JoinChannel? ==> UnusedId(s, x.newId)
    ensures cmd.KillClient? && cmd.user in s.clients ==> Enumerates(x.order, s.clients[cmd.user].channels)
    ensures cmd.BanIp? ==> Plans(s, KlineTargets(s, cmd.ip), x.plan)
  {
    hide Enumerates, ExactLookup, LowerLookup, UnusedId, Plans, KlineTargets;
  }

  /** `CommandDelta` of a command that is not taken for a login. */
  lemma CommandDeltaIs(s: State, id: Uuid, cmd: Command, x: Chance)
    requires id in s.clients && s.clients[id].status != PendingAuth
    ensures CommandDelta(s, id, cmd, x) ==
            match cmd
            case JoinChannel(_, _) => Made(id, x.newId)
            case PartChannel(_) => Gone(id)
            case KickMember(_, user, _) => Gone(user)
            case KillClient(user, reason) => KillDelta(s, id, user, reason)
            case BanIp(ip, reason) => Left(BanKills(s, id, ip, reason, x.plan))
            case ChangeModes(channel, _) => Tuned(channel)
            case ChangeTopic(channel, _) => Tuned(channel)
            case SayText(_, _) => STILL.(loud := true)
            case _ => STILL
    ensures id !in CommandDelta(s, id, cmd, x).who
  {
    hide KillDelta, BanKills;
    KillDeltaWho(s, id, cmd);
  }

  lemma KillDeltaWho(s: State, id: Uuid, cmd: Command)
    requires id in s.clients
    ensures cmd.KillClient? ==> KillDelta(s, id, cmd.user, cmd.reason).who == {}
  {
  }

  /** A client without authentication has one permission, which only opens channels without restrictions. */
  lemma StrangerRefused(s: State, actor: Uuid, channel: string, found: Option<Uuid>, newId: Uuid)
    requires Inv(s) && actor in s.clients && s.clients[actor].kind == Unknown
    requires found.Some? ==> found.value in s.channels
    ensures var open := found.Some? && M.AgentOnly !in s.channels[found.value].options
                        && M.InviteOnly !in s.channels[found.value].options;
            JoinTo(s, actor, channel, found, newId) ==
              if open then Enter(s, actor, found.value, false) else Tell(s, actor, PermissionDenied)
  {
    StandingAt(s, actor);
    UnknownIsNowhere(s, actor);
    hide Inv, Enter, Tell, Create, LooksLikeV4, T.ChannelName;
  }

  lemma JoinCommandKeeps(s: State, id: Uuid, cmd: Command, x: Chance)
    requires Inv(s) && id in s.clients && cmd.JoinChannel? && UnusedId(s, x.newId)
    requires s.clients[id].status != PendingAuth && !Intrudes(s, id, cmd, x)
    ensures var t := JoinTo(s, id, JoinText(cmd.name, cmd.target), JoinFound(s, cmd.name, cmd.target, x.named),
                            x.newId);
            Inv(t) && Evolves(Made(id, x.newId), s, t)
  {
    hide Inv, Evolves, JoinTo, UnusedId, UuidText, Tell;
    var channel, found := JoinText(cmd.name, cmd.target), JoinFound(s, cmd.name, cmd.target, x.named);
    if s.clients[id].kind == Unknown {
      StrangerRefused(s, id, channel, found, x.newId);
      RefusalKeeps(Made(id, x.newId), s, id, PermissionDenied);
    } else {
      JoinKeeps(s, id, channel, found, x.newId);
    }
  }

  lemma CommandKeeps(s: State, id: Uuid, cmd: Command, x: Chance)
    requires Inv(s) && id in s.clients && LegalCommand(s, id, cmd, x)
    requires s.clients[id].status != PendingAuth && !Intrudes(s, id, cmd, x)
    ensures var t := Handle(s, id, cmd, x); Inv(t) && Evolves(CommandDelta(s, id, cmd, x), s, t)
  {
    hide *;
    CommandChoices(s, id, cmd, x);
    CommandDeltaIs(s, id, cmd, x);
    HandleIs(s, id, cmd, x);
    match cmd
    case JoinChannel(_, _) => JoinCommandKeeps(s, id, cmd, x);
    case PartChannel(channel) => PartKeeps(s, id, channel);
    case KickMember(channel, user, reason) => KickKeeps(s, id, channel, user, reason);
    case KillClient(user, reason) => KillMeaning(s, id, user, reason, x.order);
    case BanIp(ip, reason) => KlineKeeps(s, id, ip, reason, x.plan);
    case ChangeModes(channel, modes) => ModesKeep(s, id, channel, modes);
    case ChangeTopic(channel, topic) => TopicKeeps(s, id, channel, topic);
    case SayText(channel, text) => SayKeeps(s, id, channel, text);
    case ListChannels => ListKeeps(s, id);
    case _ => Unmoved(s);
  }

  lemma DeltaAfterTouch(s: State, id: Uuid, cmd: Command, x: Chance)
    requires id in s.clients
    ensures CommandDelta(Touch(s, id, x.now), id, cmd, x) == CommandDelta(s, id, cmd, x)
  {
    hide T.Escape;
    var t := Touch(s, id, x.now);
    if cmd.BanIp? {
      assert KilledOf(t, x.plan, BanReason(cmd.reason)) == KilledOf(s, x.plan, BanReason(cmd.reason));
    }
  }

  /** The handler sees the same state as before, apart from the issuer's timestamps. */
  lemma TouchedSame(s: State, id: Uuid, cmd: Command, x: Chance)
    requires id in s.clients
    ensures var u := Touch(s, id, x.now);
            && id in u.clients && u.clients[id] == s.clients[id].(lastAction := x.now, lastPing := x.now)
            && u.channels == s.channels && u.outbox == s.outbox
            && Apply(s, Issue(id, cmd, x)) == Handle(u, id, cmd, x)
            && (Intrudes(u, id, cmd, x) <==> !CanAct(s, Issue(id, cmd, x)))
            && (Legal(s, Issue(id, cmd, x)) ==> LegalCommand(s, id, cmd, x))
  {
    hide Handle, LegalCommand, ClockOk;
  }

  lemma IssueKeeps(s: State, id: Uuid, cmd: Command, x: Chance)
    requires Inv(s) && Legal(s, Issue(id, cmd, x)) && CanAct(s, Issue(id, cmd, x)) && id in s.clients
    ensures var op := Issue(id, cmd, x);
            Inv(Apply(s, op)) && Evolves(DeltaOf(s, op), s, Apply(s, op)) && StatusFine(s, Apply(s, op), id)
  {
    var u := Touch(s, id, x.now);
    var d := CommandDelta(s, id, cmd, x);
    DeltaAfterTouch(s, id, cmd, x);
    TouchedSame(s, id, cmd, x);
    assert Changed(id).ins + d.ins !! Changed(id).outs + d.outs;
    assert DeltaOf(s, Issue(id, cmd, x)) == Plus(Changed(id), d);
    hide Inv, Evolves, Handle, LegalCommand, CommandDelta, Intrudes, Touch, Apply, Legal, CanAct, DeltaOf;
    TouchKeeps(s, id, x.now);
    LegalAfterTouch(s, id, cmd, x);
    if u.clients[id].status == PendingAuth {
      LoginKeeps(u, id, cmd, x);
    } else {
      CommandKeeps(u, id, cmd, x);
      CommandDeltaIs(u, id, cmd, x);
      if id in Handle(u, id, cmd, x).clients {
        StatusKept(d, u, Handle(u, id, cmd, x), id);
      }
    }
    OpenInv(s);
    EvolveOn(Changed(id), d, s, u, Handle(u, id, cmd, x));
  }

  lemma CheckKeeps(s: State, now: Time, plan: seq<Victim>)
    requires Inv(s) && Legal(s, Check(now, plan))
    ensures var op := Check(now, plan);
            && Inv(Apply(s, op)) && Evolves(DeltaOf(s, op), s, Apply(s, op))
            && Apply(s, op).clients == CheckAll(s.clients, now) - ExpiredIn(s, now)
  {
    var u := Inspect(s, now);
    var a, b := Inspected(ExpiredIn(s, now) + PingedIn(s, now)), Left(Others(plan));
    assert a.ins + b.ins !! a.outs + b.outs;
    hide Inv, Evolves, Inspect, PurgeAll, ExpiredIn, PingedIn, Enumerates;
    InspectKeeps(s, now);
    PlansFit(s, ExpiredIn(s, now), plan);
    assert PlanFits(u, plan) by {
      FitsAfterInspect(s, u, now, plan);
    }
    PurgeAllKeeps(u, plan);
    OpenInv(s);
    EvolveOn(a, b, s, u, PurgeAll(u, plan));
  }

  lemma FitsAfterInspect(s: State, u: State, now: Time, plan: seq<Victim>)
    requires PlanFits(s, plan) && u.clients == CheckAll(s.clients, now)
    ensures PlanFits(u, plan)
  {
    hide Enumerates;
    forall k | k in s.clients ensures u.clients[k].channels == s.clients[k].channels {
    }
  }

  /** Every legal step keeps the invariant and changes no more than its delta. */
  lemma StepKeeps(s: State, op: Op)
    requires Inv(s) && Legal(s, op) && CanAct(s, op)
    ensures Inv(Apply(s, op)) && Evolves(DeltaOf(s, op), s, Apply(s, op))
  {
    hide Inv, Evolves, Handle, HealthCheck, Accept, Disconnect;
    match op
    case Connect(id, ip, name, now) => AcceptKeeps(s, id, ip, name, now);
    case Issue(id, cmd, x) =>
      if id in s.clients {
        IssueKeeps(s, id, cmd, x);
      } else {
        Unmoved(s);
      }
    case ReadError(id, reason, order) =>
      if id in s.clients {
        DisconnectMeaning(s, id, reason, order);
      } else {
        GoneStill(Gone(id), s);
      }
    case Check(now, plan) => CheckKeeps(s, now, plan);
  }

  /** Exactly that one command breaks the invariant: it makes a member of a client without authentication. */
  lemma StepExactly(s: State, op: Op)
    requires Inv(s) && Legal(s, op)
    ensures Inv(Apply(s, op)) <==> CanAct(s, op)
  {
    hide Inv, Evolves, Apply, Legal, Intrudes;
    if CanAct(s, op) {
      StepKeeps(s, op);
    } else {
      IntruderBreaks(s, op.id, op.cmd, op.x);
    }
  }

  lemma IntruderBreaks(s: State, id: Uuid, cmd: Command, x: Chance)
    requires Inv(s) && id in s.clients && Intrudes(s, id, cmd, x)
    ensures !Inv(Apply(s, Issue(id, cmd, x)))
  {
    var u := Touch(s, id, x.now);
    var name, c := JoinText(cmd.name, cmd.target), JoinFound(s, cmd.name, cmd.target, x.named).value;
    var t := Enter(u, id, c, false);
    StrangerEnters(s, id, cmd, x);
    assert u.clients[id].kind == Unknown && u.channels == s.channels;
    hide *;
    EnterChannels(u, id, c, false);
    EnteredIsInside(u.channels[c], id, u.clients[id], t.channels[c]);
    StrangerInside(t, id, c);
  }

  lemma StrangerEnters(s: State, id: Uuid, cmd: Command, x: Chance)
    requires Inv(s) && id in s.clients && Intrudes(s, id, cmd, x)
    ensures var u, c := Touch(s, id, x.now), JoinFound(s, cmd.name, cmd.target, x.named).value;
            Apply(s, Issue(id, cmd, x)) == Enter(u, id, c, false)
  {
    var u := Touch(s, id, x.now);
    var found := JoinFound(s, cmd.name, cmd.target, x.named);
    assert Apply(s, Issue(id, cmd, x)) == Handle(u, id, cmd, x) && u.clients[id].status == s.clients[id].status;
    assert u.clients[id].kind == s.clients[id].kind && u.channels == s.channels;
    assert JoinFound(u, cmd.name, cmd.target, x.named) == found;
    assert cmd.JoinChannel? && s.clients[id].status != PendingAuth && s.clients[id].kind == Unknown && found.Some?;
    assert M.AgentOnly !in s.channels[found.value].options && M.InviteOnly !in s.channels[found.value].options;
    hide *;
    TouchKeeps(s, id, x.now);
    HandleIs(u, id, cmd, x);
    StrangerRefused(u, id, JoinText(cmd.name, cmd.target), found, x.newId);
  }

  lemma EnteredIsInside(ch: ChannelRec, id: Uuid, c: ClientRec, after: ChannelRec)
    requires after == ch.(members := ch.members[id := Clone(c)])
    ensures id in after.members
  {
  }

  lemma StrangerInside(s: State, id: Uuid, c: Uuid)
    requires id in s.clients && s.clients[id].kind == Unknown && c in s.channels && id in s.channels[c].members
    ensures !Inv(s)
  {
    if Inv(s) {
      UnknownIsNowhere(s, id);
    }
  }

  /** `Handle`, case by case. */
  lemma HandleIs(s: State, id: Uuid, cmd: Command, x: Chance)
    requires id in s.clients
    ensures Handle(s, id, cmd, x) ==
            if s.clients[id].status == PendingAuth then
              match cmd
              case GuestLogin(username) => AuthGuest(s, id, GuestName(username, x.guestName), x.global, x.local)
              case AgentLogin(nickname, permissions) => AuthAgent(s, id, nickname, permissions, x.global, x.local)
              case DeviceLogin => s
              case _ => Disconnect(s, id, "bad request pre-auth", x.own)
            else
              match cmd
              case JoinChannel(name, target) =>
                JoinTo(s, id, JoinText(name, target), JoinFound(s, name, target, x.named), x.newId)
              case PartChannel(channel) => PartFrom(s, id, channel)
              case KickMember(channel, user, reason) => KickFrom(s, id, channel, user, reason)
              case KillClient(user, reason) => Kill(s, id, user, reason, x.order)
              case BanIp(ip, reason) => Kline(s, id, ip, reason, x.plan)
              case ChangeModes(channel, modes) => SetModes(s, id, channel, modes)
              case ChangeTopic(channel, topic) => SetTopic(s, id, channel, topic)
              case SayText(channel, text) => Say(s, id, channel, text)
              case ListChannels => ListTo(s, id)
              case _ => s
  {
  }
}
