/** What every reachable state satisfies, and a relation that bounds what one step may change. */
module Invariants {
  import opened Basics
  import opened Uuids
  import opened Messages
  import opened Machine
  import M = Modes
  import T = Text

  type Clients = map<Uuid, ClientRec>

  type Channels = map<Uuid, ChannelRec>

  ghost predicate ClientIds(clients: Clients, issued: set<Uuid>) {
    forall k :: k in clients ==> clients[k].id == k && k != NIL && k in issued
  }

  ghost predicate ChannelIds(channels: Channels, issued: set<Uuid>) {
    forall c :: c in channels ==> channels[c].id == c && c in issued && channels[c].owner != Some(NIL)
  }

  /** A member is a registered, authenticated client whose own list names the channel, and its clone is up to date. */
  ghost predicate Listed(clients: Clients, c: Uuid, ch: ChannelRec) {
    forall m :: m in ch.members ==>
      m in clients && ch.members[m] == Clone(clients[m]) && clients[m].kind != Unknown && c in clients[m].channels
  }

  ghost predicate Index(clients: Clients, channels: Channels) {
    forall c :: c in channels ==> Listed(clients, c, channels[c])
  }

  ghost predicate StandingOf(c: ClientRec) {
    && (c.kind == Unknown ==> c.channels == {} && c.options == {JoinChannels})
    && (c.status == PendingAuth ==> c.kind == Unknown)
    && (c.status == Connected ==> c.kind != Unknown)
    && c.lastPing <= c.lastAction
  }

  ghost predicate Standing(clients: Clients) {
    forall k :: k in clients ==> StandingOf(clients[k])
  }

  /** Names of authenticated clients are valid and pairwise different. */
  ghost predicate Names(clients: Clients) {
    && (forall k :: k in clients && clients[k].kind != Unknown ==> T.ClientName(clients[k].name))
    && (forall j, k ::
          j in clients && k in clients && j != k && clients[j].kind != Unknown && clients[k].kind != Unknown ==>
            clients[j].name != clients[k].name)
  }

  ghost predicate Fine(clients: Clients, issued: set<Uuid>, id: Uuid, m: Msg) {
    && (IsRosterMsg(m) ==> m.channel in issued)
    && (ShowsAddress(m) && id in clients ==> clients[id].kind == Agent)
  }

  predicate IsAgent(clients: Clients, id: Uuid) {
    id in clients && clients[id].kind == Agent
  }

  /** A message that may be sent to a client. */
  ghost predicate May(clients: Clients, issued: set<Uuid>, id: Uuid, m: Msg) {
    (IsRosterMsg(m) ==> m.channel in issued) && (ShowsAddress(m) ==> IsAgent(clients, id))
  }

  /** Only agents were ever sent a real address, and roster messages are about channels that were really created. */
  ghost predicate Mail(clients: Clients, outbox: Outbox, issued: set<Uuid>) {
    && outbox.Keys <= issued
    && (forall id, i :: id in outbox && 0 <= i < |outbox[id]| ==> Fine(clients, issued, id, outbox[id][i]))
  }

  ghost predicate TopicFine(t: Option<string>) {
    t.Some? ==> t.value != "" && T.BracketFree(t.value)
  }

  ghost predicate Topics(channels: Channels) {
    forall c :: c in channels ==> TopicFine(channels[c].topic)
  }

  ghost predicate Inv(s: State) {
    && ClientIds(s.clients, s.issued)
    && ChannelIds(s.channels, s.issued)
    && Index(s.clients, s.channels)
    && Standing(s.clients)
    && Names(s.clients)
    && Mail(s.clients, s.outbox, s.issued)
    && Topics(s.channels)
  }

  lemma OpenInv(s: State)
    requires Inv(s)
    ensures ClientIds(s.clients, s.issued) && ChannelIds(s.channels, s.issued) && Index(s.clients, s.channels)
    ensures Standing(s.clients) && Names(s.clients) && Mail(s.clients, s.outbox, s.issued) && Topics(s.channels)
  {
  }

  lemma CloseInv(s: State)
    requires ClientIds(s.clients, s.issued) && ChannelIds(s.channels, s.issued) && Index(s.clients, s.channels)
    requires Standing(s.clients) && Names(s.clients) && Mail(s.clients, s.outbox, s.issued) && Topics(s.channels)
    ensures Inv(s)
  {
  }

  /** Outside a teardown every registered client is waiting for authentication or connected. */
  ghost predicate Settled(s: State, except: set<Uuid>) {
    forall k :: k in s.clients ==> k in except || s.clients[k].status == PendingAuth || s.clients[k].status == Connected
  }

  // The change relation

  /** Who may gain and lose memberships, which channels are new, which clients are new or change their own record,
      which channels' settings may change, and whether users' texts may be sent. */
  datatype Delta = Delta(ins: set<Uuid>, outs: set<Uuid>, made: set<Uuid>, who: set<Uuid>, tuned: set<Uuid>, loud: bool)

  const STILL := Delta({}, {}, {}, {}, {}, false)

  function Plus(a: Delta, b: Delta): Delta {
    Delta(a.ins + b.ins, a.outs + b.outs, a.made + b.made, a.who + b.who, a.tuned + b.tuned, a.loud || b.loud)
  }

  ghost predicate SameClient(d: Delta, k: Uuid, a: ClientRec, b: ClientRec) {
    && b.id == a.id && b.ip == a.ip
    && (Clone(b) == Clone(a) || (a.kind == Unknown && k in d.who))
    && (k !in d.who ==> b == a.(channels := b.channels))
    && (k !in d.ins + d.outs ==> b.channels == a.channels)
  }

  ghost predicate ClientsEvolve(d: Delta, before: Clients, issued: set<Uuid>, after: Clients) {
    forall k :: k in after ==>
      if k in before then SameClient(d, k, before[k], after[k]) else k in d.who && k !in issued
  }

  predicate OpenLobby(name: string) {
    name == GLOBAL_LOBBY || name == GUEST_LOBBY
  }

  ghost predicate SameChannel(d: Delta, c: Uuid, a: ChannelRec, b: ChannelRec) {
    && b.id == a.id && b.name == a.name && b.owner == a.owner
    && (c !in d.tuned ==> b == a.(members := b.members))
    && b.members.Keys <= a.members.Keys + d.ins
    && a.members.Keys - d.outs <= b.members.Keys
    && (forall m :: m in a.members && m in b.members ==> b.members[m] == a.members[m])
    && (forall m :: m in b.members && m !in a.members && M.AgentOnly in a.options ==>
          c in d.tuned || OpenLobby(a.name) || b.members[m].kind == Agent)
  }

  ghost predicate Dropped(d: Delta, c: Uuid, a: ChannelRec) {
    a.members.Keys <= d.outs && (M.Persist !in a.options || c in d.tuned)
  }

  ghost predicate ChannelsEvolve(d: Delta, before: Channels, issued: set<Uuid>, after: Channels) {
    && (forall c :: c in after ==>
          if c in before then SameChannel(d, c, before[c], after[c])
          else c in d.made && c !in issued && after[c].members.Keys <= d.ins)
    && (forall c :: c in before && c !in after ==> Dropped(d, c, before[c]))
  }

  ghost predicate TextsKept(before: Outbox, after: Outbox) {
    forall id: Uuid :: UserTexts(Box(after, id)) == UserTexts(Box(before, id))
  }

  /** Only agents are shown addresses; of a client whose own record changes this does not say when it became one. */
  ghost predicate AddressesKept(d: Delta, clients: Clients, before: Outbox, after: Outbox) {
    forall id: Uuid :: Addresses(Box(after, id)) == Addresses(Box(before, id)) || id in d.who || IsAgent(clients, id)
  }

  /** Only clients whose own record changes are sent a ping. */
  ghost predicate PingsKept(d: Delta, before: Outbox, after: Outbox) {
    forall id: Uuid :: PingCount(Box(after, id)) == PingCount(Box(before, id)) || id in d.who
  }

  ghost predicate Evolves(d: Delta, s: State, t: State) {
    && t.conf == s.conf && s.issued <= t.issued
    && ClientsEvolve(d, s.clients, s.issued, t.clients)
    && ChannelsEvolve(d, s.channels, s.issued, t.channels)
    && (d.loud || TextsKept(s.outbox, t.outbox))
    && AddressesKept(d, s.clients, s.outbox, t.outbox)
    && PingsKept(d, s.outbox, t.outbox)
  }

  lemma ClientsEvolveOn(a: Delta, b: Delta, x: Clients, i: set<Uuid>, y: Clients, j: set<Uuid>, z: Clients)
    requires ClientIds(x, i) && i <= j
    requires ClientsEvolve(a, x, i, y) && ClientsEvolve(b, y, j, z)
    ensures ClientsEvolve(Plus(a, b), x, i, z)
  {
  }

  lemma SameChannelOn(a: Delta, b: Delta, c: Uuid, x: ChannelRec, y: ChannelRec, z: ChannelRec)
    requires SameChannel(a, c, x, y) && SameChannel(b, c, y, z)
    requires a.ins + b.ins !! a.outs + b.outs
    ensures SameChannel(Plus(a, b), c, x, z)
  {
    forall m | m in x.members && m in z.members ensures z.members[m] == x.members[m] {
      assert m in y.members;
    }
    if c !in Plus(a, b).tuned {
      assert z == x.(members := z.members);
    }
  }

  lemma ChannelsEvolveOn(a: Delta, b: Delta, x: Channels, i: set<Uuid>, y: Channels, j: set<Uuid>, z: Channels)
    requires ChannelIds(x, i) && i <= j
    requires ChannelsEvolve(a, x, i, y) && ChannelsEvolve(b, y, j, z)
    requires a.ins + b.ins !! a.outs + b.outs
    ensures ChannelsEvolve(Plus(a, b), x, i, z)
  {
    var d := Plus(a, b);
    forall c | c in z && c in x ensures SameChannel(d, c, x[c], z[c]) {
      SameChannelOn(a, b, c, x[c], y[c], z[c]);
    }
  }

  lemma AddressesKeptOn(a: Delta, b: Delta, x: Clients, i: set<Uuid>, y: Clients, p: Outbox, q: Outbox, r: Outbox)
    requires ClientsEvolve(a, x, i, y) && AddressesKept(a, x, p, q) && AddressesKept(b, y, q, r)
    ensures AddressesKept(Plus(a, b), x, p, r)
  {
    forall id: Uuid | id !in Plus(a, b).who && !IsAgent(x, id)
      ensures Addresses(Box(r, id)) == Addresses(Box(p, id))
    {
      assert !IsAgent(y, id);
    }
  }

  lemma PingsKeptOn(a: Delta, b: Delta, p: Outbox, q: Outbox, r: Outbox)
    requires PingsKept(a, p, q) && PingsKept(b, q, r)
    ensures PingsKept(Plus(a, b), p, r)
  {
    forall id: Uuid | id !in Plus(a, b).who ensures PingCount(Box(r, id)) == PingCount(Box(p, id)) {
      assert PingCount(Box(q, id)) == PingCount(Box(p, id));
    }
  }

  /** The relation composes. */
  lemma EvolveOn(a: Delta, b: Delta, s: State, u: State, t: State)
    requires ClientIds(s.clients, s.issued) && ChannelIds(s.channels, s.issued)
    requires Evolves(a, s, u) && Evolves(b, u, t)
    requires a.ins + b.ins !! a.outs + b.outs
    ensures Evolves(Plus(a, b), s, t)
  {
    ClientsEvolveOn(a, b, s.clients, s.issued, u.clients, u.issued, t.clients);
    ChannelsEvolveOn(a, b, s.channels, s.issued, u.channels, u.issued, t.channels);
    PingsKeptOn(a, b, s.outbox, u.outbox, t.outbox);
    AddressesKeptOn(a, b, s.clients, s.issued, u.clients, s.outbox, u.outbox, t.outbox);
  }
}
