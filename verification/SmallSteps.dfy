/** Each small step keeps the invariant and stays inside its change relation. */
module SmallSteps {
  import opened Uuids
  import opened Messages
  import opened Machine
  import opened Invariants
  import M = Modes

  lemma MailCast(clients: Clients, out: Outbox, issued: set<Uuid>, to: set<Uuid>, m: Msg)
    requires Mail(clients, out, issued) && to <= issued
    requires forall id :: id in to ==> May(clients, issued, id, m)
    ensures Mail(clients, Deliver(out, to, m), issued)
  {
    var r := Deliver(out, to, m);
    forall id, i | id in r && 0 <= i < |r[id]| ensures Fine(clients, issued, id, r[id][i]) {
      var was := Box(out, id);
      assert Box(r, id) == if id in to then was + [m] else was;
      if i < |was| {
        assert Fine(clients, issued, id, out[id][i]);
      }
    }
  }

  /** Mail stays fine when ids are added, clients leave or are new, and nobody stops being an agent. */
  lemma MailFrame(before: Clients, out: Outbox, i: set<Uuid>, after: Clients, j: set<Uuid>)
    requires Mail(before, out, i) && i <= j
    requires forall k :: k in after && k in before && before[k].kind == Agent ==> after[k].kind == Agent
    requires forall k :: k in after && k !in before ==> k !in i
    ensures Mail(after, out, j)
  {
    forall id, n | id in out && 0 <= n < |out[id]| ensures Fine(after, j, id, out[id][n]) {
      assert Fine(before, i, id, out[id][n]);
    }
  }

  lemma TextsCast(out: Outbox, to: set<Uuid>, m: Msg)
    requires !IsUserText(m)
    ensures TextsKept(out, Deliver(out, to, m))
  {
    forall id: Uuid ensures UserTexts(Box(Deliver(out, to, m), id)) == UserTexts(Box(out, id)) {
      UserTextsSnoc(Box(out, id), m);
    }
  }

  lemma PingsCast(d: Delta, out: Outbox, to: set<Uuid>, m: Msg)
    requires m.Ping? ==> to <= d.who
    ensures PingsKept(d, out, Deliver(out, to, m))
  {
    forall id: Uuid | !m.Ping? || id !in to ensures PingCount(Box(Deliver(out, to, m), id)) == PingCount(Box(out, id)) {
      PingsSnoc(Box(out, id), m);
    }
  }

  lemma AddressesCast(d: Delta, clients: Clients, issued: set<Uuid>, out: Outbox, to: set<Uuid>, m: Msg)
    requires forall id :: id in to ==> May(clients, issued, id, m)
    ensures AddressesKept(d, clients, out, Deliver(out, to, m))
  {
    forall id: Uuid | !IsAgent(clients, id)
      ensures Addresses(Box(Deliver(out, to, m), id)) == Addresses(Box(out, id))
    {
      AddressesSnoc(Box(out, id), m);
    }
  }

  lemma SameClients(d: Delta, clients: Clients, issued: set<Uuid>)
    ensures ClientsEvolve(d, clients, issued, clients)
  {
  }

  lemma SameChannels(d: Delta, channels: Channels, issued: set<Uuid>)
    ensures ChannelsEvolve(d, channels, issued, channels)
  {
  }

  lemma SameTexts(out: Outbox)
    ensures TextsKept(out, out)
    ensures forall d: Delta, clients: Clients :: AddressesKept(d, clients, out, out)
    ensures forall d: Delta :: PingsKept(d, out, out)
  {
  }

  function Mailed(to: set<Uuid>, m: Msg): Delta {
    STILL.(loud := IsUserText(m), who := if m.Ping? then to else {})
  }

  lemma CastKeeps(s: State, to: set<Uuid>, m: Msg)
    requires Inv(s) && to <= s.issued
    requires forall id :: id in to ==> May(s.clients, s.issued, id, m)
    ensures Inv(Cast(s, to, m)) && Evolves(Mailed(to, m), s, Cast(s, to, m))
  {
    hide Inv, Mail, Names, Standing, Index, Topics, ClientIds, ChannelIds, TextsKept, AddressesKept, PingsKept,
      ClientsEvolve, ChannelsEvolve, Fine, May;
    var d := Mailed(to, m);
    OpenInv(s);
    MailCast(s.clients, s.outbox, s.issued, to, m);
    AddressesCast(d, s.clients, s.issued, s.outbox, to, m);
    PingsCast(d, s.outbox, to, m);
    SameClients(d, s.clients, s.issued);
    SameChannels(d, s.channels, s.issued);
    if !IsUserText(m) {
      TextsCast(s.outbox, to, m);
    }
    CloseInv(Cast(s, to, m));
  }

  lemma MailedStill(to: set<Uuid>, m: Msg)
    requires !m.Ping?
    ensures Mailed(to, m) == STILL.(loud := IsUserText(m))
    ensures !IsUserText(m) ==> Mailed(to, m) == STILL
  {
  }

  ghost predicate Shrunk(a: ChannelRec, b: ChannelRec) {
    b == a.(members := b.members) && b.members.Keys <= a.members.Keys
    && forall m :: m in b.members ==> b.members[m] == a.members[m]
  }

  /** Taking away members or whole channels keeps the invariant. */
  lemma ShrinkKeeps(s: State, after: Channels)
    requires Inv(s)
    requires forall c :: c in after ==> c in s.channels && Shrunk(s.channels[c], after[c])
    ensures Inv(s.(channels := after))
  {
    hide Inv, Mail, Names, Standing, ClientIds;
    OpenInv(s);
    forall c | c in after ensures Listed(s.clients, c, after[c]) {
      assert Listed(s.clients, c, s.channels[c]);
    }
    CloseInv(s.(channels := after));
  }

  function Gone(id: Uuid): Delta {
    Delta({}, {id}, {}, {}, {}, false)
  }

  lemma RemoveKeeps(s: State, cid: Uuid, id: Uuid)
    requires Inv(s) && cid in s.channels
    ensures var t := RemoveMember(s, cid, id); Inv(t) && Evolves(Gone(id), s, t)
  {
    hide Inv, Mail, Names, Standing, ClientIds, Index, Topics, TextsKept, AddressesKept, PingsKept, ClientsEvolve;
    OpenInv(s);
    var after := s.channels[cid := Without(s.channels[cid], id)];
    SameClients(Gone(id), s.clients, s.issued);
    SameTexts(s.outbox);
    ShrinkKeeps(s, after);
  }

  lemma ReapKeeps(s: State, cid: Uuid)
    requires Inv(s) && cid in s.channels
    ensures Inv(Reap(s, cid)) && Evolves(STILL, s, Reap(s, cid))
  {
    hide Inv, TextsKept, AddressesKept, PingsKept, ClientsEvolve;
    SameClients(STILL, s.clients, s.issued);
    SameChannels(STILL, s.channels, s.issued);
    SameTexts(s.outbox);
    if s.channels[cid].members == map[] && M.Persist !in s.channels[cid].options {
      ShrinkKeeps(s, s.channels - {cid});
    }
  }

  lemma RemoveReapKeeps(s: State, cid: Uuid, id: Uuid)
    requires Inv(s) && cid in s.channels
    ensures var t := Reap(RemoveMember(s, cid, id), cid); Inv(t) && Evolves(Gone(id), s, t)
  {
    var u := RemoveMember(s, cid, id);
    assert Plus(Gone(id), STILL) == Gone(id);
    RemoveKeeps(s, cid, id);
    assert cid in u.channels && ClientIds(s.clients, s.issued) && ChannelIds(s.channels, s.issued);
    hide *;
    ReapKeeps(u, cid);
    EvolveOn(Gone(id), STILL, s, u, Reap(u, cid));
  }

  lemma TearKeeps(s: State, id: Uuid, cid: Uuid, name: string, reason: string, discreet: bool)
    requires Inv(s)
    ensures var t := Tear(s, id, cid, name, reason, discreet); Inv(t) && Evolves(Gone(id), s, t)
  {
    var d := Gone(id);
    if cid in s.channels {
      var ch := s.channels[cid];
      var to := if discreet && Veiled(ch.options) then AgentsOf(ch) else ch.members.Keys;
      var m := Quit(cid, id, name, reason);
      var s1 := Cast(s, to - {id}, m);
      var t := Reap(RemoveMember(s1, cid, id), cid);
      assert Tear(s, id, cid, name, reason, discreet) == t;
      assert forall k :: May(s.clients, s.issued, k, m);
      MembersIssued(s, cid);
      assert to - {id} <= s.issued;
      assert Plus(STILL, d) == d;
      assert ClientIds(s.clients, s.issued) && ChannelIds(s.channels, s.issued) && !IsUserText(m);
      hide *;
      CastKeeps(s, to - {id}, m);
      MailedStill(to - {id}, m);
      RemoveReapKeeps(s1, cid, id);
      EvolveOn(STILL, d, s, s1, t);
    } else {
      SameClients(d, s.clients, s.issued);
      SameChannels(d, s.channels, s.issued);
    }
  }

  lemma MembersIssued(s: State, cid: Uuid)
    requires Inv(s) && cid in s.channels
    ensures cid in s.issued
    ensures s.channels[cid].members.Keys <= s.clients.Keys
    ensures s.channels[cid].members.Keys <= s.issued
  {
    assert Listed(s.clients, cid, s.channels[cid]);
  }

  lemma DropKeeps(s: State, id: Uuid)
    requires Inv(s)
    requires forall c :: c in s.channels ==> id !in s.channels[c].members
    ensures Inv(DropClient(s, id)) && Evolves(STILL, s, DropClient(s, id))
  {
    hide Inv, Mail, Topics, ChannelIds, TextsKept, AddressesKept, PingsKept, ChannelsEvolve;
    OpenInv(s);
    MailFrame(s.clients, s.outbox, s.issued, s.clients - {id}, s.issued);
    SameChannels(STILL, s.channels, s.issued);
    SameTexts(s.outbox);
    CloseInv(DropClient(s, id));
  }

  function Came(id: Uuid): Delta {
    Delta({id}, {}, {}, {}, {}, false)
  }

  function Changed(id: Uuid): Delta {
    Delta({}, {}, {}, {id}, {}, false)
  }

  /** A change of one client's record that keeps its clone, its channels growing at most. */
  lemma ClientKeeps(s: State, c: ClientRec)
    requires Inv(s) && c.id in s.clients
    requires Clone(c) == Clone(s.clients[c.id]) && c.channels >= s.clients[c.id].channels
    requires StandingOf(c)
    ensures Inv(PutClient(s, c))
  {
    hide Inv, Mail, Topics, ChannelIds;
    OpenInv(s);
    MailFrame(s.clients, s.outbox, s.issued, PutClient(s, c).clients, s.issued);
    forall x | x in s.channels ensures Listed(PutClient(s, c).clients, x, s.channels[x]) {
      assert Listed(s.clients, x, s.channels[x]);
    }
    CloseInv(PutClient(s, c));
  }

  lemma TouchKeeps(s: State, id: Uuid, now: Time)
    requires Inv(s) && id in s.clients
    ensures Inv(Touch(s, id, now)) && Evolves(Changed(id), s, Touch(s, id, now))
  {
    hide Inv, TextsKept, AddressesKept, PingsKept, ChannelsEvolve;
    var c := s.clients[id].(lastAction := now, lastPing := now);
    assert StandingOf(s.clients[id]) && s.clients[id].id == id by {
      OpenInv(s);
    }
    ClientKeeps(s, c);
    SameChannels(Changed(id), s.channels, s.issued);
    SameTexts(s.outbox);
  }

  ghost predicate MayEnter(s: State, id: Uuid, cid: Uuid) {
    && id in s.clients && cid in s.channels && s.clients[id].kind != Unknown
    && id !in s.channels[cid].members
    && (M.AgentOnly in s.channels[cid].options ==> OpenLobby(s.channels[cid].name) || s.clients[id].kind == Agent)
  }

  /** The insertion of `add_member` and `add_channel`, without the messages. */
  function Insert(s: State, id: Uuid, cid: Uuid): State
    requires id in s.clients && cid in s.channels
  {
    var c, ch := s.clients[id], s.channels[cid];
    s.(channels := s.channels[cid := ch.(members := ch.members[id := Clone(c)])],
       clients := s.clients[id := c.(channels := c.channels + {cid})])
  }

  lemma InsertedChannels(channels: Channels, issued: set<Uuid>, cid: Uuid, m: Member)
    requires ChannelIds(channels, issued) && Topics(channels) && cid in channels && m.id !in channels[cid].members
    requires M.AgentOnly in channels[cid].options ==> OpenLobby(channels[cid].name) || m.kind == Agent
    ensures var after := channels[cid := channels[cid].(members := channels[cid].members[m.id := m])];
            ChannelIds(after, issued) && Topics(after) && ChannelsEvolve(Came(m.id), channels, issued, after)
  {
  }

  lemma InsertedIndex(clients: Clients, channels: Channels, id: Uuid, cid: Uuid)
    requires Index(clients, channels) && id in clients && cid in channels && clients[id].kind != Unknown
    ensures var c, ch := clients[id], channels[cid];
            Index(clients[id := c.(channels := c.channels + {cid})],
                  channels[cid := ch.(members := ch.members[id := Clone(c)])])
  {
    var c, ch := clients[id], channels[cid];
    var after := clients[id := c.(channels := c.channels + {cid})];
    forall x | x in channels ensures Listed(after, x, channels[x]) {
      assert Listed(clients, x, channels[x]);
    }
  }

  lemma InsertKeeps(s: State, id: Uuid, cid: Uuid)
    requires Inv(s) && MayEnter(s, id, cid)
    ensures Inv(Insert(s, id, cid)) && Evolves(Came(id), s, Insert(s, id, cid))
  {
    hide Inv, Mail, Topics, Names, ChannelIds, TextsKept, AddressesKept, PingsKept, ChannelsEvolve, Index;
    OpenInv(s);
    var c := s.clients[id].(channels := s.clients[id].channels + {cid});
    assert c.id == id && StandingOf(s.clients[id]);
    ClientKeeps(s, c);
    OpenInv(PutClient(s, c));
    hide Standing, ClientIds, StandingOf;
    SameTexts(s.outbox);
    InsertedChannels(s.channels, s.issued, cid, Clone(c));
    InsertedIndex(s.clients, s.channels, id, cid);
    CloseInv(Insert(s, id, cid));
  }

  // Chains of steps: each lemma extends an evolution that began in s

  lemma StillOn(d: Delta, s: State, u: State, t: State)
    requires Inv(s) && Evolves(d, s, u) && Evolves(STILL, u, t) && d.ins !! d.outs
    ensures Evolves(d, s, t)
  {
    hide Evolves;
    assert ClientIds(s.clients, s.issued) && ChannelIds(s.channels, s.issued);
    assert Plus(d, STILL) == d;
    hide *;
    EvolveOn(d, STILL, s, u, t);
  }

  lemma OnStill(d: Delta, s: State, u: State, t: State)
    requires Inv(s) && Evolves(STILL, s, u) && Evolves(d, u, t) && d.ins !! d.outs
    ensures Evolves(d, s, t)
  {
    hide Evolves;
    assert ClientIds(s.clients, s.issued) && ChannelIds(s.channels, s.issued);
    assert Plus(STILL, d) == d;
    hide *;
    EvolveOn(STILL, d, s, u, t);
  }

  lemma Unmoved(s: State)
    ensures Evolves(STILL, s, s)
  {
    SameClients(STILL, s.clients, s.issued);
    SameChannels(STILL, s.channels, s.issued);
    SameTexts(s.outbox);
  }

  lemma CastOn(d: Delta, s: State, u: State, to: set<Uuid>, m: Msg)
    requires Inv(s) && Inv(u) && Evolves(d, s, u) && d.ins !! d.outs
    requires to <= u.issued && !IsUserText(m) && (m.Ping? ==> to <= d.who)
    requires forall id :: id in to ==> May(u.clients, u.issued, id, m)
    ensures Inv(Cast(u, to, m)) && Evolves(d, s, Cast(u, to, m))
  {
    assert Plus(d, Mailed(to, m)) == d && Mailed(to, m).ins == {} && Mailed(to, m).outs == {};
    assert ClientIds(s.clients, s.issued) && ChannelIds(s.channels, s.issued) by { OpenInv(s); }
    hide *;
    CastKeeps(u, to, m);
    EvolveOn(d, Mailed(to, m), s, u, Cast(u, to, m));
  }

  /** Nobody's address, no user's text, no ping, and only real channels in roster messages: such a message may go to
      anyone. */
  predicate Plain(issued: set<Uuid>, m: Msg) {
    !IsUserText(m) && !ShowsAddress(m) && !m.Ping? && (IsRosterMsg(m) ==> m.channel in issued)
  }

  lemma PlainOn(d: Delta, s: State, u: State, to: set<Uuid>, m: Msg)
    requires Inv(s) && Inv(u) && Evolves(d, s, u) && d.ins !! d.outs
    requires to <= u.issued && Plain(u.issued, m)
    ensures Inv(Cast(u, to, m)) && Evolves(d, s, Cast(u, to, m))
    ensures forall cond :: Inv(CastIf(u, cond, to, m)) && Evolves(d, s, CastIf(u, cond, to, m))
  {
    assert forall id :: May(u.clients, u.issued, id, m);
    hide Inv, Evolves;
    CastOn(d, s, u, to, m);
  }

  lemma PingOn(d: Delta, s: State, u: State, to: set<Uuid>, now: Time)
    requires Inv(s) && Inv(u) && Evolves(d, s, u) && d.ins !! d.outs
    requires to <= u.issued && to <= d.who
    ensures Inv(Cast(u, to, Ping(now))) && Evolves(d, s, Cast(u, to, Ping(now)))
  {
    assert forall id :: May(u.clients, u.issued, id, Ping(now));
    hide Inv, Evolves;
    CastOn(d, s, u, to, Ping(now));
  }

  lemma AgentsAreAgents(s: State, cid: Uuid)
    requires Inv(s) && cid in s.channels
    ensures forall k :: k in AgentsOf(s.channels[cid]) ==> k in s.clients && s.clients[k].kind == Agent && k in s.issued
    ensures forall k :: k in NonAgentsOf(s.channels[cid]) ==> k in s.clients && k in s.issued
  {
    assert Listed(s.clients, cid, s.channels[cid]);
  }

  /** A message to some members, then one with the address to the agents among them. */
  lemma TwoCasts(s: State, cid: Uuid, masked: Msg, open: Msg)
    requires Inv(s) && cid in s.channels && IsRosterMsg(open) && open.channel == cid && Plain(s.issued, masked)
    ensures var ch := s.channels[cid];
            var t := Cast(Cast(s, NonAgentsOf(ch), masked), AgentsOf(ch), open);
            && Inv(t) && Evolves(STILL, s, t)
            && Inv(Cast(s, AgentsOf(ch), open)) && Evolves(STILL, s, Cast(s, AgentsOf(ch), open))
  {
    var ch := s.channels[cid];
    var s1 := Cast(s, NonAgentsOf(ch), masked);
    var agents, others := AgentsOf(ch), NonAgentsOf(ch);
    AgentsAreAgents(s, cid);
    assert cid in s.issued by { OpenInv(s); }
    assert agents <= s.issued && others <= s.issued && s1.issued == s.issued && s1.clients == s.clients;
    assert forall id :: id in agents ==> May(s.clients, s.issued, id, open);
    assert !IsUserText(open) && STILL.ins !! STILL.outs;
    hide *;
    Unmoved(s);
    PlainOn(STILL, s, s, others, masked);
    CastOn(STILL, s, s, agents, open);
    CastOn(STILL, s, s1, agents, open);
  }

  lemma BroadcastJoinKeeps(s: State, cid: Uuid, who: Uuid, name: string, ip: Ip)
    requires Inv(s) && cid in s.channels
    ensures var t := BroadcastJoin(s, s.channels[cid], who, name, ip); Inv(t) && Evolves(STILL, s, t)
  {
    assert s.channels[cid].id == cid && cid in s.issued by { OpenInv(s); }
    var masked, open := Join(cid, who, name, MASKED), Join(cid, who, name, ip);
    assert Plain(s.issued, masked);
    hide Inv, Evolves, NonAgentsOf, AgentsOf, Deliver, Plain, Veiled;
    TwoCasts(s, cid, masked, open);
    Unmoved(s);
  }

  lemma BroadcastPartKeeps(s: State, cid: Uuid, who: Uuid, ip: Ip)
    requires Inv(s) && cid in s.channels
    ensures var t := BroadcastPart(s, s.channels[cid], who, ip); Inv(t) && Evolves(STILL, s, t)
  {
    assert s.channels[cid].id == cid && cid in s.issued by { OpenInv(s); }
    var masked, open := Part(cid, who, MASKED), Part(cid, who, ip);
    assert Plain(s.issued, masked);
    hide Inv, Evolves, NonAgentsOf, AgentsOf, Deliver, Plain, Veiled;
    TwoCasts(s, cid, masked, open);
    Unmoved(s);
  }

  /** The announcements that precede the insertion. */
  function Announce(s: State, id: Uuid, cid: Uuid): (t: State)
    requires id in s.clients && cid in s.channels
    ensures t == s.(outbox := t.outbox)
    ensures Admit(s, id, cid) == Insert(t, id, cid)
  {
    var c, ch := s.clients[id], s.channels[cid];
    var seen := Unseen !in c.options;
    var heard := if seen then BroadcastJoin(s, ch, id, c.name, c.ip) else s;
    CastIf(heard, seen, {id}, ChannelModes(ch.id, M.Labels(ch.options)))
  }

  lemma AnnounceKeeps(s: State, id: Uuid, cid: Uuid)
    requires Inv(s) && id in s.clients && cid in s.channels
    ensures Inv(Announce(s, id, cid)) && Evolves(STILL, s, Announce(s, id, cid))
  {
    var c, ch := s.clients[id], s.channels[cid];
    var seen, m := Unseen !in c.options, ChannelModes(ch.id, M.Labels(ch.options));
    var u := if seen then BroadcastJoin(s, ch, id, c.name, c.ip) else s;
    assert u.issued == s.issued && Plain(s.issued, m);
    assert Announce(s, id, cid) == CastIf(u, seen, {id}, m);
    assert id in s.issued by { OpenInv(s); }
    assert STILL.ins !! STILL.outs;
    hide *;
    Unmoved(s);
    BroadcastJoinKeeps(s, cid, id, c.name, c.ip);
    PlainOn(STILL, s, u, {id}, m);
  }

  lemma AdmitKeeps(s: State, id: Uuid, cid: Uuid)
    requires Inv(s) && MayEnter(s, id, cid)
    ensures Inv(Admit(s, id, cid)) && Evolves(Came(id), s, Admit(s, id, cid))
  {
    var u := Announce(s, id, cid);
    assert MayEnter(u, id, cid) && Admit(s, id, cid) == Insert(u, id, cid);
    hide *;
    AnnounceKeeps(s, id, cid);
    InsertKeeps(u, id, cid);
    OnStill(Came(id), s, u, Insert(u, id, cid));
  }

  lemma WelcomeKeeps(s: State, id: Uuid, cid: Uuid, lobby: bool)
    requires Inv(s) && id in s.clients && cid in s.channels
    ensures Inv(Welcome(s, id, cid, lobby)) && Evolves(STILL, s, Welcome(s, id, cid, lobby))
  {
    var c, ch := s.clients[id], s.channels[cid];
    var seen := M.Invisible !in ch.options || c.kind == Agent;
    var listed := M.HiddenMemberList !in ch.options || (!lobby && c.kind == Agent);
    var m1, m2, m3 := Join(ch.id, id, c.name, MASKED), UserList(ch.id, UsersOf(ch)),
      Topic(ch.id, ch.topic.UnwrapOr(""));
    assert id in s.issued && ch.id in s.issued by { OpenInv(s); }
    var s1 := CastIf(s, seen, {id}, m1);
    var s2 := CastIf(s1, seen && listed, {id}, m2);
    assert Welcome(s, id, cid, lobby) == CastIf(s2, seen && lobby && ch.topic.Some?, {id}, m3);
    assert s2.issued == s1.issued == s.issued;
    assert Plain(s.issued, m1) && Plain(s.issued, m2) && Plain(s.issued, m3) && STILL.ins !! STILL.outs;
    hide *;
    Unmoved(s);
    PlainOn(STILL, s, s, {id}, m1);
    PlainOn(STILL, s, s1, {id}, m2);
    PlainOn(STILL, s, s2, {id}, m3);
  }

  lemma EnterKeeps(s: State, id: Uuid, cid: Uuid, lobby: bool)
    requires Inv(s) && MayEnter(s, id, cid)
    ensures Inv(Enter(s, id, cid, lobby)) && Evolves(Came(id), s, Enter(s, id, cid, lobby))
  {
    var u := Admit(s, id, cid);
    assert id in u.clients && cid in u.channels && Came(id).ins !! Came(id).outs;
    assert Enter(s, id, cid, lobby) == Welcome(u, id, cid, lobby);
    hide *;
    AdmitKeeps(s, id, cid);
    WelcomeKeeps(u, id, cid, lobby);
    StillOn(Came(id), s, u, Welcome(u, id, cid, lobby));
  }
}
