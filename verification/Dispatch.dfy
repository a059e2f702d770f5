/** The command dispatcher on objects. Whatever clients send, each call is one legal step of the machine. */
module Dispatch {
  import opened Basics
  import opened Uuids
  import opened ClientObject
  import opened ServerObject
  import opened Commands
  import C = ChannelCommands
  import H = Handlers
  import I = Invariants
  import J = Joining
  import S = Machine
  import Service
  import Steps
  import T = Text

  /** Any choices that are legal for a command, to be replaced by those that were really made. */
  lemma AnyChance(s: S.State, id: Uuid, cmd: S.Command, now: S.Time, newId: Uuid, guestName: string)
    returns (x: S.Chance)
    requires id in s.clients && S.UnusedId(s, newId)
    ensures S.LegalCommand(s, id, cmd, x) && x.now == now && x.newId == newId && x.guestName == guestName
  {
    hide Enumerates, S.ExactLookup, S.LowerLookup, S.UnusedId, S.Plans, S.KlineTargets;
    var own := AnyOrder(s.clients[id].channels);
    var global := J.AnyLookup(s, S.GLOBAL_LOBBY);
    x := S.Chance(now, newId, guestName, global, None, None, own, [], []);
    match cmd
    case GuestLogin(_) =>
      var local := J.AnyLookup(s, S.GUEST_LOBBY);
      x := x.(local := local);
    case AgentLogin(_, _) =>
      var local := J.AnyLookup(s, S.STAFF_LOBBY);
      x := x.(local := local);
    case JoinChannel(name, _) =>
      var named := AnyLowerLookup(s, name);
      x := x.(named := named);
    case KillClient(user, _) =>
      if user in s.clients {
        var order := AnyOrder(s.clients[user].channels);
        x := x.(order := order);
      }
    case BanIp(ip, _) =>
      TargetsAreClients(s, ip);
      var plan := AnyPlan(s, S.KlineTargets(s, ip));
      x := x.(plan := plan);
    case _ =>
  }

  lemma AnyLowerLookup(s: S.State, name: string) returns (found: Option<Uuid>)
    ensures S.LowerLookup(s, name, found)
  {
    hide T.Lower;
    if c :| c in s.channels && T.Lower(s.channels[c].name) == T.Lower(name) {
      found := Some(c);
    } else {
      found := None;
    }
  }

  /** Before authentication only logins are accepted, and device logins are ignored; anything else ends the
      connection. */
  method HandleLogin(server: Server, client: Client, cmd: S.Command, ghost base: S.Chance, guestName: string)
    returns (ghost x: S.Chance)
    requires Serves(server, client) && client.status == S.PendingAuth
    requires S.LegalCommand(server.Abs(), client.id, cmd, base) && base.guestName == guestName
    modifies server.Parts()
    ensures server.Valid() && fresh(server.Parts() - old(server.Parts()))
    ensures S.LegalCommand(old(server.Abs()), client.id, cmd, x) && x.now == base.now
    ensures server.Abs() == S.Handle(old(server.Abs()), client.id, cmd, x)
  {
    ghost var s := server.Abs();
    assert s.clients[client.id] == client.Record();
    hide *;
    x := base;
    match cmd
    case GuestLogin(username) =>
      ghost var global, local := J.AuthGuest(server, client, username, guestName);
      x := base.(global := global, local := local);
      LoginLegal(s, client.id, cmd, base, global, local);
      Steps.HandleIs(s, client.id, cmd, x);
    case AgentLogin(nickname, permissions) =>
      ghost var global, local := J.AuthAgent(server, client, nickname, permissions);
      x := base.(global := global, local := local);
      LoginLegal(s, client.id, cmd, base, global, local);
      Steps.HandleIs(s, client.id, cmd, x);
    case DeviceLogin => Steps.HandleIs(s, client.id, cmd, x);
    case _ =>
      ghost var own := Service.CloseConnection(server, client, "bad request pre-auth");
      x := base.(own := own);
      OwnLegal(s, client.id, cmd, base, own);
      Steps.HandleIs(s, client.id, cmd, x);
  }

  lemma LoginLegal(s: S.State, id: Uuid, cmd: S.Command, x: S.Chance, global: Option<Uuid>, local: Option<Uuid>)
    requires id in s.clients && S.LegalCommand(s, id, cmd, x) && S.ExactLookup(s, S.GLOBAL_LOBBY, global)
    requires cmd.GuestLogin? || cmd.AgentLogin?
    requires S.ExactLookup(s, if cmd.GuestLogin? then S.GUEST_LOBBY else S.STAFF_LOBBY, local)
    ensures S.LegalCommand(s, id, cmd, x.(global := global, local := local))
  {
    hide S.ExactLookup, Enumerates;
  }

  lemma OwnLegal(s: S.State, id: Uuid, cmd: S.Command, x: S.Chance, own: seq<Uuid>)
    requires id in s.clients && S.LegalCommand(s, id, cmd, x) && Enumerates(own, s.clients[id].channels)
    ensures S.LegalCommand(s, id, cmd, x.(own := own))
  {
    hide S.ExactLookup, S.LowerLookup, S.UnusedId, S.Plans, Enumerates;
  }

  lemma ChoicesLegal(s: S.State, id: Uuid, cmd: S.Command, x: S.Chance, named: Option<Uuid>, order: seq<Uuid>,
                     plan: seq<S.Victim>)
    requires id in s.clients && S.LegalCommand(s, id, cmd, x)
    requires cmd.JoinChannel? && cmd.name != "" ==> S.LowerLookup(s, cmd.name, named)
    requires cmd.KillClient? && cmd.user in s.clients ==> Enumerates(order, s.clients[cmd.user].channels)
    requires cmd.BanIp? ==> S.Plans(s, S.KlineTargets(s, cmd.ip), plan)
    ensures S.LegalCommand(s, id, cmd, x.(named := named, order := order, plan := plan))
  {
    hide S.ExactLookup, S.LowerLookup, S.UnusedId, S.Plans, Enumerates;
  }

  /** The commands of a client that does not wait for authentication. */
  method HandleConnected(server: Server, client: Client, cmd: S.Command, ghost base: S.Chance, newId: Uuid)
    returns (ghost x: S.Chance)
    requires Serves(server, client) && client.status != S.PendingAuth && newId !in server.channels
    requires S.LegalCommand(server.Abs(), client.id, cmd, base) && base.newId == newId
    modifies server.Parts()
    ensures server.Valid() && fresh(server.Parts() - old(server.Parts()))
    ensures S.LegalCommand(old(server.Abs()), client.id, cmd, x) && x.now == base.now
    ensures server.Abs() == S.Handle(old(server.Abs()), client.id, cmd, x)
  {
    ghost var s := server.Abs();
    assert s.clients[client.id] == client.Record();
    assert forall k :: k in s.clients ==> k in server.clients && s.clients[k].channels == server.clients[k].channels;
    assert server.Valid();
    hide *;
    ghost var named, order, plan := base.named, base.order, base.plan;
    BaseChoices(s, client.id, cmd, base);
    match cmd {
      case JoinChannel(name, target) => named := J.JoinChannel(server, client, name, target, newId);
      case PartChannel(channel) => C.Part(server, client, channel);
      case KickMember(channel, user, reason) => C.KickMember(server, client, channel, user, reason);
      case KillClient(user, reason) => order := Kill(server, client, user, reason);
      case BanIp(ip, reason) => plan := Kline(server, client, ip, reason);
      case ChangeModes(channel, modes) => C.SetChannelModes(server, client, channel, modes);
      case ChangeTopic(channel, topic) => C.SetChannelTopic(server, client, channel, topic);
      case SayText(channel, text) => Service.DeliverText(server, client, channel, text);
      case ListChannels => C.ListChannels(server, client);
      case _ =>
    }
    x := base.(named := named, order := order, plan := plan);
    ChoicesLegal(s, client.id, cmd, base, named, order, plan);
    Steps.HandleIs(s, client.id, cmd, x);
  }

  lemma BaseChoices(s: S.State, id: Uuid, cmd: S.Command, x: S.Chance)
    requires id in s.clients && S.LegalCommand(s, id, cmd, x)
    ensures cmd.JoinChannel? && cmd.name != "" ==> S.LowerLookup(s, cmd.name, x.named)
    ensures cmd.KillClient? && cmd.user in s.clients ==> Enumerates(x.order, s.clients[cmd.user].channels)
    ensures cmd.BanIp? ==> S.Plans(s, S.KlineTargets(s, cmd.ip), x.plan)
  {
    hide S.ExactLookup, S.LowerLookup, S.UnusedId, S.Plans, Enumerates;
  }

  /** The timestamps have no influence on which choices are legal. */
  lemma LegalBeforeTouch(s: S.State, id: Uuid, cmd: S.Command, x: S.Chance)
    requires id in s.clients && S.LegalCommand(S.Touch(s, id, x.now), id, cmd, x)
    ensures S.LegalCommand(s, id, cmd, x)
  {
    var t := S.Touch(s, id, x.now);
    hide Enumerates, S.ExactLookup, S.LowerLookup, S.UnusedId;
    assert forall k :: k in s.clients ==> k in t.clients && t.clients[k].channels == s.clients[k].channels;
    H.LookupFrame(t, s, S.GLOBAL_LOBBY, x.global);
    if cmd.GuestLogin? {
      H.LookupFrame(t, s, S.GUEST_LOBBY, x.local);
    } else if cmd.AgentLogin? {
      H.LookupFrame(t, s, S.STAFF_LOBBY, x.local);
    } else if cmd.JoinChannel? {
      Steps.NewIdFrame(t, s, x.newId);
      if cmd.name != "" {
        Steps.LowerFrame(t, s, cmd.name, x.named);
      }
    } else if cmd.BanIp? {
      assert S.KlineTargets(t, cmd.ip) == S.KlineTargets(s, cmd.ip);
    }
  }

  lemma TouchParts(s: S.State, id: Uuid, now: S.Time, newId: Uuid)
    requires id in s.clients && S.UnusedId(s, newId) && I.Inv(s)
    ensures var t := S.Touch(s, id, now);
            id in t.clients && S.UnusedId(t, newId) && t.clients[id].status == s.clients[id].status
              && newId !in s.channels
  {
  }

  /** A command arrives, whatever the status of its client: both timestamps are updated, then it is carried out. This
      is one legal step of the machine, so it keeps the invariant exactly if the client may act. */
  method HandleClientCommand(server: Server, client: Client, cmd: S.Command, now: S.Time, newId: Uuid,
                             guestName: string)
    returns (ghost op: S.Op)
    requires Serves(server, client) && I.Inv(server.Abs())
    requires S.ClockOk(server.Abs(), now) && S.UnusedId(server.Abs(), newId)
    modifies server.Parts()
    ensures server.Valid() && forall o :: o in server.Parts() - old(server.Parts()) ==> fresh(o)
    ensures op.Issue? && op.id == client.id && op.cmd == cmd && op.x.now == now
    ensures S.Legal(old(server.Abs()), op) && server.Abs() == S.Apply(old(server.Abs()), op)
    ensures I.Inv(server.Abs()) <==> Steps.CanAct(old(server.Abs()), op)
  {
    ghost var s, id := server.Abs(), client.id;
    assert id in s.clients && s.clients[id].status == client.status && s.channels.Keys == server.channels.Keys;
    assert client in server.Parts();
    hide *;
    TouchParts(s, id, now, newId);
    Touch(server, client, now);
    ghost var base := AnyChance(server.Abs(), id, cmd, now, newId, guestName);
    ghost var parts := server.Parts();
    label Touched:
    ghost var x := HandleTouched(server, client, cmd, base, newId, guestName);
    assert forall o :: o in server.Parts() - parts ==> fresh@Touched(o);
    op := S.Issue(id, cmd, x);
    LegalBeforeTouch(s, id, cmd, x);
    Concluded(s, op, server.Abs());
  }

  method HandleTouched(server: Server, client: Client, cmd: S.Command, ghost base: S.Chance, newId: Uuid,
                       guestName: string)
    returns (ghost x: S.Chance)
    requires Serves(server, client) && newId !in server.channels
    requires S.LegalCommand(server.Abs(), client.id, cmd, base) && base.newId == newId && base.guestName == guestName
    modifies server.Parts()
    ensures server.Valid() && fresh(server.Parts() - old(server.Parts()))
    ensures S.LegalCommand(old(server.Abs()), client.id, cmd, x) && x.now == base.now
    ensures server.Abs() == S.Handle(old(server.Abs()), client.id, cmd, x)
  {
    hide *;
    if client.status == S.PendingAuth {
      x := HandleLogin(server, client, cmd, base, guestName);
    } else {
      x := HandleConnected(server, client, cmd, base, newId);
    }
  }

  /** Every command is a sign of life. */
  method Touch(server: Server, client: Client, now: S.Time)
    requires Serves(server, client)
    modifies client
    ensures Serves(server, client) && server.Abs() == S.Touch(old(server.Abs()), client.id, now)
    ensures client.status == old(client.status) && client.id in server.Abs().clients
    ensures server.Parts() == old(server.Parts())
  {
    client.UpdateLastActionTime(now);
    client.UpdateLastPingTime(now);
    server.ClientOnly(client.id);
  }

  lemma Concluded(s: S.State, op: S.Op, t: S.State)
    requires I.Inv(s) && op.Issue? && op.id in s.clients && S.ClockOk(s, op.x.now)
             && S.LegalCommand(s, op.id, op.cmd, op.x)
    requires t == S.Handle(S.Touch(s, op.id, op.x.now), op.id, op.cmd, op.x)
    ensures S.Legal(s, op) && t == S.Apply(s, op) && (I.Inv(t) <==> Steps.CanAct(s, op))
  {
    hide I.Inv, S.ClockOk, S.LegalCommand, S.Handle, S.Touch, I.Evolves, Steps.CanAct;
    Steps.StepExactly(s, op);
  }
}
