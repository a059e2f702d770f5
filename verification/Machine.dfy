/** The server's shared state as a value, and every handler as a function from state to state.
    Each handler is one atomic step. HashMap iteration order and name lookups that may find several
    channels are arguments, constrained by `Legal`. */
module Machine {
  import opened Basics
  import opened Uuids
  import opened Messages
  import M = Modes
  import T = Text

  /** Wall-clock time in nanoseconds. */
  type Time = int

  const SECOND: int := 1_000_000_000
  const PING_TIMEOUT: int := 180 * SECOND
  const PING_CHECK_IDLE: int := 60 * SECOND

  datatype ClientType = Unknown | Agent | Contact | Guest

  datatype Status = PendingAuth | Connected | Zombie | Closing

  /** The client permissions that the server tests. */
  datatype Power = Admin | JoinChannels | PartChannels | CreateChannels | Unseen

  datatype ClientRec = ClientRec(
    id: Uuid,
    name: string,
    kind: ClientType,
    options: set<Power>,
    ip: Ip,
    lastPing: Time,
    lastAction: Time,
    status: Status,
    channels: set<Uuid>)

  /** The clone of a client kept in a channel's member table. */
  datatype Member = Member(id: Uuid, name: string, kind: ClientType, options: set<Power>, ip: Ip)

  function Clone(c: ClientRec): Member {
    Member(c.id, c.name, c.kind, c.options, c.ip)
  }

  datatype ChannelRec = ChannelRec(
    id: Uuid,
    name: string,
    owner: Option<Uuid>,
    members: map<Uuid, Member>,
    topic: Option<string>,
    options: M.Options)

  datatype Ban = Ban(ip: Ip, reason: string, addedBy: string)

  datatype Config = Config(
    allowGuests: bool,
    guestOptions: set<Power>,
    useGlobal: bool,
    useStaff: bool,
    useGuest: bool,
    maxTopic: nat)

  /** `issued` holds every id ever generated, for clients and channels alike. */
  datatype State = State(
    conf: Config,
    clients: map<Uuid, ClientRec>,
    channels: map<Uuid, ChannelRec>,
    bans: seq<Ban>,
    outbox: Outbox,
    issued: set<Uuid>)

  // Small steps

  function Cast(s: State, to: set<Uuid>, m: Msg): State {
    s.(outbox := Deliver(s.outbox, to, m))
  }

  function CastIf(s: State, cond: bool, to: set<Uuid>, m: Msg): State {
    if cond then Cast(s, to, m) else s
  }

  function Tell(s: State, id: Uuid, code: Problem): State {
    Cast(s, {id}, Trouble(code))
  }

  function PutClient(s: State, c: ClientRec): State {
    s.(clients := s.clients[c.id := c])
  }

  function DropClient(s: State, id: Uuid): State {
    s.(clients := s.clients - {id})
  }

  function AgentsOf(ch: ChannelRec): set<Uuid> {
    set k | k in ch.members && ch.members[k].kind == Agent
  }

  function NonAgentsOf(ch: ChannelRec): set<Uuid> {
    set k | k in ch.members && ch.members[k].kind != Agent
  }

  /** The member list is not shown to everybody. */
  predicate Veiled(options: M.Options) {
    M.HiddenMemberList in options || M.Invisible in options
  }

  /** Members who are not agents see the masked address. */
  function BroadcastJoin(s: State, ch: ChannelRec, who: Uuid, name: string, ip: Ip): State {
    if Veiled(ch.options) then Cast(s, AgentsOf(ch), Join(ch.id, who, name, ip))
    else Cast(Cast(s, NonAgentsOf(ch), Join(ch.id, who, name, MASKED)), AgentsOf(ch), Join(ch.id, who, name, ip))
  }

  /** In a veiled channel the broadcast's future is dropped, so nothing is sent. */
  function BroadcastPart(s: State, ch: ChannelRec, who: Uuid, ip: Ip): State {
    if Veiled(ch.options) then s
    else Cast(Cast(s, NonAgentsOf(ch), Part(ch.id, who, MASKED)), AgentsOf(ch), Part(ch.id, who, ip))
  }

  function Without(ch: ChannelRec, id: Uuid): ChannelRec {
    ch.(members := ch.members - {id})
  }

  function RemoveMember(s: State, cid: Uuid, id: Uuid): State
    requires cid in s.channels
  {
    s.(channels := s.channels[cid := Without(s.channels[cid], id)])
  }

  /** Unregister a channel that is empty and not persistent. */
  function Reap(s: State, cid: Uuid): State
    requires cid in s.channels
  {
    if s.channels[cid].members == map[] && M.Persist !in s.channels[cid].options then
      s.(channels := s.channels - {cid})
    else s
  }

  /** `add_member` and `add_channel`: broadcast first, then insert the clone, then note the channel in the client's
      list. */
  function Admit(s: State, id: Uuid, cid: Uuid): State
    requires id in s.clients && cid in s.channels
  {
    var c, ch := s.clients[id], s.channels[cid];
    var seen := Unseen !in c.options;
    var heard := if seen then BroadcastJoin(s, ch, id, c.name, c.ip) else s;
    var told := CastIf(heard, seen, {id}, ChannelModes(ch.id, M.Labels(ch.options)));
    told.(channels := s.channels[cid := ch.(members := ch.members[id := Clone(c)])],
          clients := s.clients[id := c.(channels := c.channels + {cid})])
  }

  function UsersOf(ch: ChannelRec): map<Uuid, string> {
    map k | k in ch.members :: ch.members[k].name
  }

  /** What the newcomer itself is told after it was admitted. */
  function Welcome(s: State, id: Uuid, cid: Uuid, lobby: bool): State
    requires id in s.clients && cid in s.channels
  {
    var c, ch := s.clients[id], s.channels[cid];
    var seen := M.Invisible !in ch.options || c.kind == Agent;
    var listed := M.HiddenMemberList !in ch.options || (!lobby && c.kind == Agent);
    var s1 := CastIf(s, seen, {id}, Join(ch.id, id, c.name, MASKED));
    var s2 := CastIf(s1, seen && listed, {id}, UserList(ch.id, UsersOf(ch)));
    CastIf(s2, seen && lobby && ch.topic.Some?, {id}, Topic(ch.id, ch.topic.UnwrapOr("")))
  }

  function Enter(s: State, id: Uuid, cid: Uuid, lobby: bool): (t: State)
    requires id in s.clients && cid in s.channels
    ensures t.clients.Keys == s.clients.Keys && t.bans == s.bans
  {
    Welcome(Admit(s, id, cid), id, cid, lobby)
  }

  function WallopTo(s: State): set<Uuid> {
    set k | k in s.clients && s.clients[k].status == Connected && s.clients[k].kind == Agent
  }

  predicate Banned(bans: seq<Ban>, ip: Ip) {
    exists i :: 0 <= i < |bans| && bans[i].ip == ip
  }

  predicate NameTaken(s: State, name: string) {
    exists k :: k in s.clients && s.clients[k].name == name
  }

  // Teardown of a client: kill, ping purge and connection errors

  /** One turn of a teardown loop. Connection errors tell agents only when the member list is veiled. */
  function Tear(s: State, id: Uuid, cid: Uuid, name: string, reason: string, discreet: bool): State {
    if cid !in s.channels then s
    else
      var ch := s.channels[cid];
      var to := if discreet && Veiled(ch.options) then AgentsOf(ch) else ch.members.Keys;
      Reap(RemoveMember(Cast(s, to - {id}, Quit(cid, id, name, reason)), cid, id), cid)
  }

  function TearAll(s: State, id: Uuid, order: seq<Uuid>, name: string, reason: string, discreet: bool): State {
    if order == [] then s
    else
      var n := |order| - 1;
      Tear(TearAll(s, id, order[..n], name, reason, discreet), id, order[n], name, reason, discreet)
  }

  /** `handle_client_error`. */
  function Disconnect(s: State, id: Uuid, reason: string, order: seq<Uuid>): State
    requires id in s.clients
  {
    DropClient(TearAll(s, id, order, s.clients[id].name, reason, true), id)
  }

  /** The purge loop of `check_client_pings` for one expired client. */
  function Purge(s: State, id: Uuid, order: seq<Uuid>): State {
    if id !in s.clients then s
    else DropClient(TearAll(s, id, order, s.clients[id].name, "ping timeout: 180 seconds", false), id)
  }

  const NO_REASON := "no reason was provided."

  function KillReason(reason: string): string {
    if T.Escape(reason) == "" then NO_REASON else T.Escape(reason)
  }

  predicate MayKill(s: State, actor: Uuid, target: Uuid, reason: string)
    requires actor in s.clients
  {
    && s.clients[actor].kind == Agent
    && target in s.clients
    && Admin !in s.clients[target].options
    && |T.Escape(reason)| <= 255
  }

  function Kill(s: State, actor: Uuid, target: Uuid, reason: string, order: seq<Uuid>): State
    requires actor in s.clients
  {
    if s.clients[actor].kind != Agent then Tell(s, actor, PermissionDenied)
    else if target !in s.clients then Tell(s, actor, NameInvalid)
    else if Admin in s.clients[target].options then Tell(s, actor, PermissionDenied)
    else if |T.Escape(reason)| > 255 then Tell(s, actor, InvalidArgument)
    else
      var victim := s.clients[target];
      var why := KillReason(reason);
      var s1 := TearAll(s, target, order, victim.name, "Killed (" + why + ")", false);
      var s2 := DropClient(Cast(s1, {target}, Trouble(KickedFromServer)), target);
      Cast(s2, WallopTo(s2), KillNotice(s.clients[actor].name, victim.name, victim.ip, why))
  }

  /** A client to be torn down, with the order in which its channel list is iterated. */
  datatype Victim = Victim(id: Uuid, order: seq<Uuid>)

  function KillAll(s: State, actor: Uuid, plan: seq<Victim>, reason: string): State {
    if plan == [] then s
    else
      var n := |plan| - 1;
      var t := KillAll(s, actor, plan[..n], reason);
      if actor in t.clients then Kill(t, actor, plan[n].id, reason, plan[n].order) else t
  }

  function BanReason(reason: string): string {
    "Banned (" + reason + ")"
  }

  function KlineTargets(s: State, ip: Ip): set<Uuid> {
    set k | k in s.clients && s.clients[k].ip == ip && s.clients[k].kind != Agent
  }

  function Kline(s: State, actor: Uuid, ip: Ip, reason: string, plan: seq<Victim>): State
    requires actor in s.clients
  {
    if s.clients[actor].kind != Agent then Tell(s, actor, PermissionDenied)
    else if Banned(s.bans, ip) then Tell(s, actor, AlreadyMember)
    else
      var name := s.clients[actor].name;
      var s1 := s.(bans := s.bans + [Ban(ip, reason, name)]);
      var s2 := Cast(s1, WallopTo(s1), BanNotice(name, ip, |plan|, BanReason(reason)));
      KillAll(s2, actor, plan, BanReason(reason))
  }

  // Channel commands

  predicate Owns(ch: ChannelRec, c: ClientRec) {
    ch.owner.UnwrapOr(NIL) == c.id || c.kind == Agent
  }

  function KickFrom(s: State, actor: Uuid, cid: Uuid, user: Uuid, reason: string): State
    requires actor in s.clients
  {
    if cid !in s.channels then Tell(s, actor, ChannelInvalid)
    else if !Owns(s.channels[cid], s.clients[actor]) then Tell(s, actor, PermissionDenied)
    else if user !in s.channels[cid].members || user !in s.clients then Tell(s, actor, NotMember)
    else
      var s1 := Cast(s, s.channels[cid].members.Keys, Kick(cid, user, reason));
      var s2 := RemoveMember(s1, cid, user);
      var c := s.clients[user];
      s2.(clients := s2.clients[user := c.(channels := c.channels - {cid})])
  }

  /** The modes a permitted request results in: agents set all of them, owners only the public ones. */
  function ModesAfter(ch: ChannelRec, c: ClientRec, modes: M.U64): M.Options {
    if c.kind == Agent then M.FlagsOf(modes) else M.Merge(ch.options, M.FlagsOf(modes))
  }

  function SetModes(s: State, actor: Uuid, cid: Uuid, modes: M.U64): State
    requires actor in s.clients
  {
    if cid !in s.channels then Tell(s, actor, ChannelInvalid)
    else if !Owns(s.channels[cid], s.clients[actor]) then Tell(s, actor, PermissionDenied)
    else
      var ch := s.channels[cid];
      var after := ModesAfter(ch, s.clients[actor], modes);
      if after == ch.options then s
      else
        var s1 := s.(channels := s.channels[cid := ch.(options := after)]);
        var s2 := Cast(s1, ch.members.Keys, Text(cid, NIL, s.clients[actor].name, "has changed the channel modes."));
        Cast(s2, ch.members.Keys, ChannelModes(cid, M.Labels(after)))
  }

  function SetTopic(s: State, actor: Uuid, cid: Uuid, topic: string): State
    requires actor in s.clients
  {
    if cid !in s.channels then Tell(s, actor, ChannelInvalid)
    else if !Owns(s.channels[cid], s.clients[actor]) then Tell(s, actor, PermissionDenied)
    else
      var ch := s.channels[cid];
      var clean := T.Escape(topic);
      if |clean| > s.conf.maxTopic then Tell(s, actor, InvalidArgument)
      else
        var s1 := s.(channels := s.channels[cid := ch.(topic := if clean == "" then None else Some(clean))]);
        var s2 := Cast(s1, ch.members.Keys, Text(cid, NIL, s.clients[actor].name, "has changed the channel topic."));
        Cast(s2, ch.members.Keys, Topic(cid, clean))
  }

  /** Who receives a text said in a channel. */
  function Hearers(ch: ChannelRec, speaker: Uuid): set<Uuid> {
    if M.HiddenMessages in ch.options then AgentsOf(ch) else ch.members.Keys - {speaker}
  }

  function Say(s: State, actor: Uuid, cid: Uuid, text: string): State
    requires actor in s.clients
  {
    if cid !in s.channels || actor !in s.channels[cid].members then s
    else Cast(s, Hearers(s.channels[cid], actor), Text(cid, actor, s.clients[actor].name, T.Escape(text)))
  }

  /** Invisible and secret channels are never listed, agent-only channels only to agents. */
  predicate OnList(ch: ChannelRec, kind: ClientType) {
    M.Invisible !in ch.options && M.Secret !in ch.options && (M.AgentOnly in ch.options ==> kind == Agent)
  }

  function RowOf(ch: ChannelRec): Row {
    Row(ch.name, ch.topic.UnwrapOr(""), |ch.members|, M.WordOf(ch.options))
  }

  function ListFor(channels: map<Uuid, ChannelRec>, kind: ClientType): map<Uuid, Row> {
    map c | c in channels && OnList(channels[c], kind) :: RowOf(channels[c])
  }

  function ListTo(s: State, actor: Uuid): State
    requires actor in s.clients
  {
    Cast(s, {actor}, ChannelList(ListFor(s.channels, s.clients[actor].kind)))
  }

  function PartFrom(s: State, actor: Uuid, cid: Uuid): State
    requires actor in s.clients
  {
    var c := s.clients[actor];
    if Admin !in c.options && PartChannels !in c.options then Tell(s, actor, PermissionDenied)
    else if cid !in s.channels then Tell(s, actor, ChannelInvalid)
    else if actor !in s.channels[cid].members then Tell(s, actor, NotMember)
    else if M.CanNotLeave in s.channels[cid].options && (c.kind != Agent || Admin !in c.options) then
      Tell(s, actor, PermissionDenied)
    else Leave(s, actor, cid)
  }

  /** The leaver is told first; its own channel list is not touched. */
  function Leave(s: State, actor: Uuid, cid: Uuid): State
    requires actor in s.clients && cid in s.channels
  {
    var s1 := RemoveMember(Cast(s, {actor}, Part(cid, actor, MASKED)), cid, actor);
    Reap(BroadcastPart(s1, s1.channels[cid], actor, s.clients[actor].ip), cid)
  }

  /** `channel` is the requested name, or the text of the id when joining by id. */
  function JoinTo(s: State, actor: Uuid, channel: string, found: Option<Uuid>, newId: Uuid): State
    requires actor in s.clients
    requires found.Some? ==> found.value in s.channels
  {
    var c := s.clients[actor];
    if Admin !in c.options && JoinChannels !in c.options then Tell(s, actor, PermissionDenied)
    else if found.Some? then
      var ch := s.channels[found.value];
      if actor in ch.members then Tell(s, actor, AlreadyMember)
      else if M.AgentOnly in ch.options && c.kind != Agent then Tell(s, actor, PermissionDenied)
      else if M.InviteOnly in ch.options && Admin !in c.options then Tell(s, actor, PermissionDenied)
      else Enter(s, actor, found.value, false)
    else if CreateChannels !in c.options && c.kind != Agent then Tell(s, actor, PermissionDenied)
    else if LooksLikeV4(channel) then Tell(s, actor, ChannelInvalid)
    else if !T.ChannelName(channel) then Tell(s, actor, ChannelNameBad)
    else Create(s, actor, channel, newId)
  }

  /** A new channel is owned by its creator, who is its only member and is sent no user list. */
  function Create(s: State, actor: Uuid, name: string, newId: Uuid): State
    requires actor in s.clients
  {
    var ch := ChannelRec(newId, name, Some(actor), map[], None, {M.ClientInvites, M.SaveHistory});
    var s1 := Admit(s.(channels := s.channels[newId := ch], issued := s.issued + {newId}), actor, newId);
    Cast(s1, {actor}, Join(newId, actor, s.clients[actor].name, MASKED))
  }

  // Authentication

  const GLOBAL_LOBBY := "Global Lobby"
  const STAFF_LOBBY := "Staff Lobby"
  const GUEST_LOBBY := "Guest Lobby"

  function EnterLobby(s: State, id: Uuid, use: bool, lobby: Option<Uuid>): (t: State)
    requires id in s.clients
    ensures t.clients.Keys == s.clients.Keys && t.bans == s.bans
  {
    if use && lobby.Some? && lobby.value in s.channels then Enter(s, id, lobby.value, true) else s
  }

  function SignIn(s: State, id: Uuid, name: string, kind: ClientType, options: set<Power>): (t: State)
    requires id in s.clients
    ensures t.clients.Keys == s.clients.Keys && t.bans == s.bans
  {
    var s1 := s.(clients :=
      s.clients[id := s.clients[id].(name := name, kind := kind, options := options, status := Connected)]);
    Cast(s1, {id}, AuthOk(id, name))
  }

  function AuthGuest(s: State, id: Uuid, name: string, global: Option<Uuid>, local: Option<Uuid>): State
    requires id in s.clients
  {
    if !s.conf.allowGuests then Tell(s, id, NotAvailable)
    else if NameTaken(s, name) then Tell(s, id, NameInUse)
    else if !T.ClientName(name) then Tell(s, id, NameInvalid)
    else
      var s1 := SignIn(s, id, name, Guest, s.conf.guestOptions);
      EnterLobby(EnterLobby(s1, id, s.conf.useGlobal, global), id, s.conf.useGuest, local)
  }

  /** `permissions` is the answer of the credential check. */
  function AuthAgent(s: State, id: Uuid, name: string, permissions: Option<set<Power>>,
                     global: Option<Uuid>, local: Option<Uuid>): State
    requires id in s.clients
  {
    if permissions.None? then DropClient(Tell(s, id, InvalidAuth), id)
    else if NameTaken(s, name) then Tell(s, id, NameInUse)
    else if !T.ClientName(name) then Tell(s, id, NameInvalid)
    else
      var s1 := SignIn(s, id, name, Agent, permissions.value);
      EnterLobby(EnterLobby(s1, id, s.conf.useGlobal, global), id, s.conf.useStaff, local)
  }

  // Connections and health checks

  /** The ban check and the registration of a new connection. */
  function Accept(s: State, id: Uuid, ip: Ip, name: string, now: Time): State {
    if Banned(s.bans, ip) then s
    else
      s.(clients := s.clients[id := ClientRec(id, name, Unknown, {JoinChannels}, ip, now, now, PendingAuth, {})],
         issued := s.issued + {id})
  }

  function Touch(s: State, id: Uuid, now: Time): State
    requires id in s.clients
  {
    s.(clients := s.clients[id := s.clients[id].(lastAction := now, lastPing := now)])
  }

  /** Idle for a minute, and no command for three minutes. */
  predicate Expired(c: ClientRec, now: Time) {
    c.lastAction < now - PING_CHECK_IDLE && c.lastPing < now - PING_TIMEOUT
  }

  predicate NeedsPing(c: ClientRec, now: Time) {
    c.lastAction < now - PING_CHECK_IDLE && !(c.lastPing < now - PING_TIMEOUT) && c.lastPing < now - PING_CHECK_IDLE
  }

  function Checked(c: ClientRec, now: Time): ClientRec {
    if Expired(c, now) then c.(status := Zombie)
    else if NeedsPing(c, now) then c.(lastAction := now)
    else c
  }

  function ExpiredIn(s: State, now: Time): set<Uuid> {
    set k | k in s.clients && Expired(s.clients[k], now)
  }

  function PingedIn(s: State, now: Time): set<Uuid> {
    set k | k in s.clients && NeedsPing(s.clients[k], now)
  }

  /** First loop of the health check: ping idle clients, mark the expired ones. */
  function Inspect(s: State, now: Time): State {
    var s1 := s.(clients := map k | k in s.clients :: Checked(s.clients[k], now));
    Cast(Cast(s1, PingedIn(s, now), Ping(now)), ExpiredIn(s, now), PingTimeout)
  }

  function PurgeAll(s: State, plan: seq<Victim>): State {
    if plan == [] then s
    else
      var n := |plan| - 1;
      Purge(PurgeAll(s, plan[..n]), plan[n].id, plan[n].order)
  }

  function HealthCheck(s: State, now: Time, plan: seq<Victim>): State {
    PurgeAll(Inspect(s, now), plan)
  }

  // Commands and steps

  /** An empty `name` in a join means joining by the id `target`. */
  datatype Command =
    | GuestLogin(username: Option<string>)
    | AgentLogin(nickname: string, permissions: Option<set<Power>>)
    | JoinChannel(name: string, target: Uuid)
    | PartChannel(channel: Uuid)
    | KickMember(channel: Uuid, user: Uuid, reason: string)
    | KillClient(user: Uuid, reason: string)
    | BanIp(ip: Ip, reason: string)
    | ChangeModes(channel: Uuid, modes: M.U64)
    | ChangeTopic(channel: Uuid, topic: string)
    | SayText(channel: Uuid, text: string)
    | ListChannels
    | DeviceLogin
    | OtherCommand

  /** What the environment decides during a command: the clock, new ids and names, lookups and iteration orders. */
  datatype Chance = Chance(
    now: Time,
    newId: Uuid,
    guestName: string,
    global: Option<Uuid>,
    local: Option<Uuid>,
    named: Option<Uuid>,
    own: seq<Uuid>,
    order: seq<Uuid>,
    plan: seq<Victim>)

  function GuestName(username: Option<string>, generated: string): string {
    if username.Some? then "Guest-" + username.value else generated
  }

  function JoinText(channel: string, target: Uuid): string {
    if channel == "" then UuidText(target) else channel
  }

  function JoinFound(s: State, channel: string, target: Uuid, named: Option<Uuid>): (found: Option<Uuid>)
    ensures found.Some? ==> found.value in s.channels
  {
    if channel == "" then (if target in s.channels then Some(target) else None)
    else if named.Some? && named.value in s.channels then named
    else None
  }

  /** `handle_client_command` after the timestamps were updated. */
  function Handle(s: State, id: Uuid, cmd: Command, x: Chance): State
    requires id in s.clients
  {
    if s.clients[id].status == PendingAuth then
      match cmd
      case GuestLogin(username) => AuthGuest(s, id, GuestName(username, x.guestName), x.global, x.local)
      case AgentLogin(nickname, permissions) => AuthAgent(s, id, nickname, permissions, x.global, x.local)
      case DeviceLogin => s
      case _ => Disconnect(s, id, "bad request pre-auth", x.own)
    else
      match cmd
      case JoinChannel(channel, target) =>
        JoinTo(s, id, JoinText(channel, target), JoinFound(s, channel, target, x.named), x.newId)
      case PartChannel(channel) => PartFrom(s, id, channel)
      case KickMember(channel, user, reason) => KickFrom(s, id, channel, user, reason)
      case KillClient(user, reason) => Kill(s, id, user, reason, x.order)
      case BanIp(ip, reason) => Kline(s, id, ip, reason, x.plan)
      case ChangeModes(channel, modes) => SetModes(s, id, channel, modes)
      case ChangeTopic(channel, topic) => SetTopic(s, id, channel, topic)
      case SayText(channel, text) => Say(s, id, channel, text)
      case ListChannels => ListTo(s, id)
      case GuestLogin(_) => s
      case AgentLogin(_, _) => s
      case DeviceLogin => s
      case OtherCommand => s
  }

  datatype Op =
    | Connect(id: Uuid, ip: Ip, name: string, now: Time)
    | Issue(id: Uuid, cmd: Command, x: Chance)
    | ReadError(id: Uuid, reason: string, order: seq<Uuid>)
    | Check(now: Time, plan: seq<Victim>)

  /** Commands and errors of clients that are no longer registered change nothing. */
  function Apply(s: State, op: Op): State {
    match op
    case Connect(id, ip, name, now) => Accept(s, id, ip, name, now)
    case Issue(id, cmd, x) => if id in s.clients then Handle(Touch(s, id, x.now), id, cmd, x) else s
    case ReadError(id, reason, order) => if id in s.clients then Disconnect(s, id, reason, order) else s
    case Check(now, plan) => HealthCheck(s, now, plan)
  }

  // What the environment may choose

  ghost predicate ExactLookup(s: State, name: string, found: Option<Uuid>) {
    match found
    case None => forall c :: c in s.channels ==> s.channels[c].name != name
    case Some(c) => c in s.channels && s.channels[c].name == name
  }

  ghost predicate LowerLookup(s: State, name: string, found: Option<Uuid>) {
    match found
    case None => forall c :: c in s.channels ==> T.Lower(s.channels[c].name) != T.Lower(name)
    case Some(c) => c in s.channels && T.Lower(s.channels[c].name) == T.Lower(name)
  }

  /** `plan` lists the clients `all` once, each with an iteration order of its own channel list. */
  ghost predicate Plans(s: State, all: set<Uuid>, plan: seq<Victim>) {
    && (forall k :: k in all ==> k in s.clients)
    && (forall k :: k in all ==> exists i :: 0 <= i < |plan| && plan[i].id == k)
    && (forall i :: 0 <= i < |plan| ==> plan[i].id in all && Enumerates(plan[i].order, s.clients[plan[i].id].channels))
    && (forall i, j :: 0 <= i < j < |plan| ==> plan[i].id != plan[j].id)
  }

  ghost predicate UnusedId(s: State, id: Uuid) {
    id != NIL && id !in s.issued
  }

  /** The clock does not run behind a recorded timestamp. */
  ghost predicate ClockOk(s: State, now: Time) {
    forall k :: k in s.clients ==> s.clients[k].lastAction <= now && s.clients[k].lastPing <= now
  }

  ghost predicate LegalCommand(s: State, id: Uuid, cmd: Command, x: Chance)
    requires id in s.clients
  {
    && Enumerates(x.own, s.clients[id].channels)
    && ExactLookup(s, GLOBAL_LOBBY, x.global)
    && (match cmd
        case GuestLogin(_) => ExactLookup(s, GUEST_LOBBY, x.local)
        case AgentLogin(_, _) => ExactLookup(s, STAFF_LOBBY, x.local)
        case JoinChannel(channel, _) => UnusedId(s, x.newId) && (channel != "" ==> LowerLookup(s, channel, x.named))
        case KillClient(user, _) => user in s.clients ==> Enumerates(x.order, s.clients[user].channels)
        case BanIp(ip, _) => Plans(s, KlineTargets(s, ip), x.plan)
        case _ => true)
  }

  ghost predicate Legal(s: State, op: Op) {
    match op
    case Connect(id, _, _, now) => UnusedId(s, id)
    case Issue(id, cmd, x) => id in s.clients ==> ClockOk(s, x.now) && LegalCommand(s, id, cmd, x)
    case ReadError(id, _, order) => id in s.clients ==> Enumerates(order, s.clients[id].channels)
    case Check(now, plan) => ClockOk(s, now) && Plans(s, ExpiredIn(s, now), plan)
  }

  // Startup

  function Lobby(id: Uuid, name: string, topic: Option<string>, options: M.Options): ChannelRec {
    ChannelRec(id, name, None, map[], topic, options)
  }

  const VERSION := "0.14.0-beta"
  const GLOBAL_TOPIC := "InvenT chatd v" + VERSION + " (unreleased) - " + "imightanswer@clearchat.club"
  const STAFF_TOPIC := "DO NOT GIVE OUT YOUR PASSWORDS"

  function AddLobby(s: State, use: bool, ch: ChannelRec): State {
    if use then s.(channels := s.channels[ch.id := ch], issued := s.issued + {ch.id}) else s
  }

  /** The configuration, the loaded bans and the ids generated for the lobbies. */
  datatype Setup = Setup(conf: Config, bans: seq<Ban>, global: Uuid, staff: Uuid, guest: Uuid)

  /** The server after `create_default_channels`. */
  function Start(u: Setup): State {
    var s0 := State(u.conf, map[], map[], u.bans, map[], {});
    var s1 := AddLobby(s0, u.conf.useGlobal,
      Lobby(u.global, GLOBAL_LOBBY, Some(GLOBAL_TOPIC), {M.Persist, M.RejoinClients, M.SaveHistory, M.CanNotLeave}));
    var s2 := AddLobby(s1, u.conf.useStaff,
      Lobby(u.staff, STAFF_LOBBY, Some(STAFF_TOPIC),
            {M.Persist, M.AgentOnly, M.RejoinClients, M.SaveHistory, M.CanNotLeave}));
    AddLobby(s2, u.conf.useGuest, Lobby(u.guest, GUEST_LOBBY, None, {M.Persist, M.RejoinClients, M.CanNotLeave}))
  }
}
