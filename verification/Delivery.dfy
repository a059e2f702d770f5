/** What reaches the outboxes: user texts, masked addresses and broadcasts. */
module Delivery {
  import opened Basics
  import opened Uuids
  import opened Messages
  import opened Machine
  import opened Invariants
  import opened SmallSteps
  import opened Handlers
  import opened Steps
  import opened Runs
  import opened Collection
  import opened Naming
  import M = Modes
  import T = Text

  /** An authenticated client says something. */
  predicate Says(s: State, op: Op) {
    op.Issue? && op.cmd.SayText? && op.id in s.clients && s.clients[op.id].status != PendingAuth
  }

  /** Who hears a step: exactly the agents of the channel when messages are hidden, else exactly the members other
      than the speaker; nobody if the speaker is not a member, and nobody for any other step. */
  function HearersOf(s: State, op: Op): set<Uuid> {
    if Says(s, op) && op.cmd.channel in s.channels && op.id in s.channels[op.cmd.channel].members
    then Hearers(s.channels[op.cmd.channel], op.id)
    else {}
  }

  /** The user texts a step adds to a client's outbox: one sanitised copy, or nothing. */
  function Heard(s: State, op: Op, r: Uuid): seq<Msg> {
    if r in HearersOf(s, op) && Says(s, op) then
      [Text(op.cmd.channel, op.id, s.clients[op.id].name, T.Escape(op.cmd.text))]
    else []
  }

  lemma OnlySayIsLoud(s: State, op: Op)
    ensures HearersOf(s, op) == {} ==> !DeltaOf(s, op).loud || Says(s, op)
    ensures HearersOf(s, op) != {} ==> Says(s, op)
  {
    hide BanKills, MayKill;
  }

  /** Every step adds exactly `Heard` to everybody's user texts. */
  lemma TextsOfStep(s: State, op: Op, r: Uuid)
    requires Inv(s) && Legal(s, op) && CanAct(s, op)
    ensures UserTexts(Box(Apply(s, op).outbox, r)) == UserTexts(Box(s.outbox, r)) + Heard(s, op, r)
  {
    hide Inv, Legal, CanAct, Handle, HealthCheck, Disconnect, Accept, ChannelsEvolve, ClientsEvolve, DeltaOf,
      UserTexts, T.Escape;
    OnlySayIsLoud(s, op);
    if Says(s, op) {
      SayTexts(s, op, r);
    } else {
      StepKeeps(s, op);
    }
  }

  lemma SayTexts(s: State, op: Op, r: Uuid)
    requires Inv(s) && Says(s, op)
    ensures UserTexts(Box(Apply(s, op).outbox, r)) == UserTexts(Box(s.outbox, r)) + Heard(s, op, r)
  {
    hide Inv, T.Escape, Handle, UserTexts;
    IdIssued(s, op.id);
    var u := Touch(s, op.id, op.x.now);
    HandleIs(u, op.id, op.cmd, op.x);
    var m := Text(op.cmd.channel, op.id, s.clients[op.id].name, T.Escape(op.cmd.text));
    UserTextsSnoc(Box(s.outbox, r), m);
    assert op.id != NIL && IsUserText(m);
  }

  function HeardUntil(r: Run, i: nat, who: Uuid): seq<Msg>
    requires i <= |r.ops| && |r.states| == |r.ops| + 1
  {
    if i == 0 then [] else HeardUntil(r, i - 1, who) + Heard(r.states[i - 1], r.ops[i - 1], who)
  }

  /** Over any run, the user texts in an outbox are those explained by membership and modes when they were sent,
      in that order, and no others. */
  lemma {:induction false} TextsExplained(r: Run, i: nat, who: Uuid)
    requires IsRun(r) && i < |r.states|
    ensures UserTexts(Box(r.states[i].outbox, who)) == HeardUntil(r, i, who)
  {
    hide Inv, Legal, Apply, CanAct, Settled, Evolves, Heard, Start;
    if i == 0 {
      EmptyBoxes(r.setup, who);
    } else {
      TextsExplained(r, i - 1, who);
      RunStep(r, i - 1);
      TextsOfStep(r.states[i - 1], r.ops[i - 1], who);
    }
  }

  lemma EmptyBoxes(u: Setup, who: Uuid)
    ensures Box(Start(u).outbox, who) == []
  {
  }

  /** What hears means, member by member. */
  lemma HearersMeaning(s: State, op: Op, r: Uuid)
    requires Inv(s) && Says(s, op)
    ensures r in HearersOf(s, op) <==>
            && op.cmd.channel in s.channels
            && op.id in s.channels[op.cmd.channel].members
            && r in s.channels[op.cmd.channel].members
            && (if M.HiddenMessages in s.channels[op.cmd.channel].options then s.clients[r].kind == Agent
                else r != op.id)
  {
    hide Inv;
    if op.cmd.channel in s.channels {
      AgentsAreAgents(s, op.cmd.channel);
      MemberClones(s, op.cmd.channel);
    }
  }

  lemma MemberClones(s: State, cid: Uuid)
    requires Inv(s) && cid in s.channels
    ensures forall m :: m in s.channels[cid].members ==>
              m in s.clients && s.channels[cid].members[m] == Clone(s.clients[m])
  {
    hide Inv, Mail, Names, Standing, Topics, ChannelIds, ClientIds;
    OpenInv(s);
    assert Listed(s.clients, cid, s.channels[cid]);
  }

  // Addresses

  /** The health check itself sends nothing but pings. */
  lemma InspectShowsNothing(s: State, now: Time, id: Uuid)
    ensures Addresses(Box(Inspect(s, now).outbox, id)) == Addresses(Box(s.outbox, id))
  {
    hide Addresses, PingedIn, ExpiredIn, Checked;
    var pinged := Deliver(s.outbox, PingedIn(s, now), Ping(now));
    AddressesSnoc(Box(s.outbox, id), Ping(now));
    AddressesSnoc(Box(pinged, id), PingTimeout);
  }

  /** A client that is not made an agent by its login is shown no address. */
  lemma LoginShowsNothing(s: State, id: Uuid, cmd: Command, x: Chance)
    requires Inv(s) && id in s.clients && LegalCommand(s, id, cmd, x) && s.clients[id].status == PendingAuth
    requires id !in Handle(s, id, cmd, x).clients
    ensures Addresses(Box(Handle(s, id, cmd, x).outbox, id)) == Addresses(Box(s.outbox, id))
  {
    hide Inv, AuthGuest, Disconnect, LegalCommand, Addresses, EnterLobby, T.ClientName, NameTaken;
    StandingAt(s, id);
    HandleIs(s, id, cmd, x);
    if cmd.GuestLogin? {
      GuestStays(s, id, GuestName(cmd.username, x.guestName), x.global, x.local);
    } else if cmd.AgentLogin? {
      AddressesSnoc(Box(s.outbox, id), Trouble(InvalidAuth));
    } else {
      LoginKeeps(s, id, cmd, x);
    }
  }

  lemma GuestStays(s: State, id: Uuid, name: string, global: Option<Uuid>, local: Option<Uuid>)
    requires id in s.clients
    ensures id in AuthGuest(s, id, name, global, local).clients
  {
  }

  /** A registered client that is no agent was shown no address so far. */
  lemma NothingShown(s: State, id: Uuid)
    requires Inv(s) && id in s.clients && s.clients[id].kind != Agent
    ensures Addresses(Box(s.outbox, id)) == []
  {
    hide Inv, Addresses;
    OpenInv(s);
    var box := Box(s.outbox, id);
    forall n | 0 <= n < |box| ensures !ShowsAddress(box[n]) {
      assert Fine(s.clients, s.issued, id, s.outbox[id][n]);
    }
    hide Mail;
    AllMasked(box);
  }

  lemma {:induction false} AllMasked(msgs: seq<Msg>)
    requires forall n :: 0 <= n < |msgs| ==> !ShowsAddress(msgs[n])
    ensures Addresses(msgs) == []
  {
    if msgs != [] {
      AllMasked(msgs[..|msgs| - 1]);
    }
  }

  lemma CheckShowsNothing(s: State, now: Time, plan: seq<Victim>, id: Uuid)
    requires Inv(s) && Legal(s, Check(now, plan)) && !IsAgent(s.clients, id)
    ensures Addresses(Box(Apply(s, Check(now, plan)).outbox, id)) == Addresses(Box(s.outbox, id))
  {
    var u := Inspect(s, now);
    hide Inv, Evolves, Inspect, PurgeAll, ExpiredIn, PingedIn, Enumerates, Addresses;
    InspectKeeps(s, now);
    InspectShowsNothing(s, now, id);
    PlansFit(s, ExpiredIn(s, now), plan);
    FitsAfterInspect(s, u, now, plan);
    PurgeAllKeeps(u, plan);
    hide PlanFits, Legal;
    ShownKept(Left(Others(plan)), u, PurgeAll(u, plan), id);
  }

  lemma ShownKept(d: Delta, s: State, t: State, id: Uuid)
    requires Evolves(d, s, t) && id !in d.who && !IsAgent(s.clients, id)
    ensures Addresses(Box(t.outbox, id)) == Addresses(Box(s.outbox, id))
  {
    hide TextsKept, ClientsEvolve, ChannelsEvolve, Addresses;
  }

  lemma IssueShowsNothing(s: State, id: Uuid, cmd: Command, x: Chance)
    requires Inv(s) && Legal(s, Issue(id, cmd, x)) && CanAct(s, Issue(id, cmd, x))
    requires id in s.clients && s.clients[id].kind != Agent && id !in Apply(s, Issue(id, cmd, x)).clients
    ensures Addresses(Box(Apply(s, Issue(id, cmd, x)).outbox, id)) == Addresses(Box(s.outbox, id))
  {
    var u := Touch(s, id, x.now);
    hide Inv, Evolves, Handle, LegalCommand, CommandDelta, Intrudes, Addresses, Touch, Apply, Legal, CanAct;
    TouchedSame(s, id, cmd, x);
    TouchKeeps(s, id, x.now);
    LegalAfterTouch(s, id, cmd, x);
    if u.clients[id].status == PendingAuth {
      LoginShowsNothing(u, id, cmd, x);
    } else {
      CommandKeeps(u, id, cmd, x);
      CommandDeltaIs(u, id, cmd, x);
      ShownKept(CommandDelta(u, id, cmd, x), u, Handle(u, id, cmd, x), id);
    }
  }

  /** No step shows an address to anybody who is not an agent before it or after it, gone or not. */
  lemma StepShowsNothing(s: State, op: Op, id: Uuid)
    requires Inv(s) && Legal(s, op) && CanAct(s, op)
    requires !IsAgent(s.clients, id) && !IsAgent(Apply(s, op).clients, id) && Addresses(Box(s.outbox, id)) == []
    ensures Addresses(Box(Apply(s, op).outbox, id)) == []
  {
    var t := Apply(s, op);
    hide Inv, Evolves, Legal, CanAct, Handle, Addresses, HealthCheck, Disconnect, Accept;
    StepKeeps(s, op);
    if id in t.clients {
      NothingShown(t, id);
    } else {
      match op
      case Connect(k, ip, name, now) => AcceptSendsNothing(s, k, ip, name, now);
      case Issue(k, cmd, x) =>
        if k == id && id in s.clients {
          IssueShowsNothing(s, id, cmd, x);
        } else {
          OthersOwnRecords(s, op, id);
          ShownKept(DeltaOf(s, op), s, t, id);
        }
      case ReadError(_, _, _) => ShownKept(DeltaOf(s, op), s, t, id);
      case Check(now, plan) => CheckShowsNothing(s, now, plan, id);
    }
  }

  lemma AcceptSendsNothing(s: State, id: Uuid, ip: Ip, name: string, now: Time)
    ensures Accept(s, id, ip, name, now).outbox == s.outbox
  {
  }

  lemma OthersOwnRecords(s: State, op: Op, id: Uuid)
    requires op.Issue? && (op.id != id || id !in s.clients)
    ensures id !in DeltaOf(s, op).who
  {
  }

  /** In every run an id that never belonged to an agent, of a client registered or long gone, was never sent anybody's
      real address: every Join and Part carried 0.0.0.0, and no kill or ban notice arrived. */
  lemma AddressesMasked(r: Run, i: nat, id: Uuid, n: nat)
    requires IsRun(r) && i < |r.states| && n < |Box(r.states[i].outbox, id)|
    requires forall k: nat :: k <= i ==> !IsAgent(r.states[k].clients, id)
    ensures var m := Box(r.states[i].outbox, id)[n];
            (m.Join? || m.Part? ==> m.ip == MASKED) && !m.KillNotice? && !m.BanNotice?
  {
    hide IsRun, IsAgent, Addresses;
    NeverShown(r, i, id);
    NoAddresses(Box(r.states[i].outbox, id), n);
  }

  lemma {:induction false} NeverShown(r: Run, i: nat, id: Uuid)
    requires IsRun(r) && i < |r.states|
    requires forall k: nat :: k <= i ==> !IsAgent(r.states[k].clients, id)
    ensures Addresses(Box(r.states[i].outbox, id)) == []
  {
    hide Inv, Settled, Legal, Apply, Start, CanAct, Evolves, IsAgent;
    if i == 0 {
      EmptyBoxes(r.setup, id);
    } else {
      NeverShown(r, i - 1, id);
      RunStep(r, i - 1);
      StepShowsNothing(r.states[i - 1], r.ops[i - 1], id);
    }
  }

  /** For a client that is registered it is enough that it is not an agent now. */
  lemma RegisteredMasked(r: Run, i: nat, id: Uuid, n: nat)
    requires IsRun(r) && i < |r.states|
    requires id in r.states[i].clients && r.states[i].clients[id].kind != Agent && n < |Box(r.states[i].outbox, id)|
    ensures var m := Box(r.states[i].outbox, id)[n];
            (m.Join? || m.Part? ==> m.ip == MASKED) && !m.KillNotice? && !m.BanNotice?
  {
    hide Inv, Settled, Legal, Apply, Start, IsRun, Addresses;
    RunKeeps(r, i);
    NothingShown(r.states[i], id);
    NoAddresses(Box(r.states[i].outbox, id), n);
  }

  /** The copy of a broadcast that a member should get: the real address is for agents only. */
  function MaskFor(s: State, m: Uuid, ip: Ip): Ip {
    if m in s.clients && s.clients[m].kind == Agent then ip else MASKED
  }

  /** In a channel whose member list is open, a join is announced exactly once to each member and to nobody else;
      in a veiled one only to the agents. It rests on the clones having the types of the registry. */
  lemma JoinBroadcast(s: State, cid: Uuid, who: Uuid, name: string, ip: Ip, r: Uuid)
    requires Inv(s) && cid in s.channels
    ensures var ch := s.channels[cid];
            var got, had := Box(BroadcastJoin(s, ch, who, name, ip).outbox, r), Box(s.outbox, r);
            if r in ch.members && (!Veiled(ch.options) || s.clients[r].kind == Agent)
            then got == had + [Join(cid, who, name, MaskFor(s, r, ip))] else got == had
  {
    hide Inv;
    MemberClones(s, cid);
    assert s.channels[cid].id == cid by { OpenInv(s); }
  }

  /** The same for a part, which is not announced at all in a veiled channel. */
  lemma PartBroadcast(s: State, cid: Uuid, who: Uuid, ip: Ip, r: Uuid)
    requires Inv(s) && cid in s.channels
    ensures var ch := s.channels[cid];
            var got, had := Box(BroadcastPart(s, ch, who, ip).outbox, r), Box(s.outbox, r);
            if r in ch.members && !Veiled(ch.options)
            then got == had + [Part(cid, who, MaskFor(s, r, ip))] else got == had
  {
    hide Inv;
    MemberClones(s, cid);
    assert s.channels[cid].id == cid by { OpenInv(s); }
  }

  // Topics

  /** Every topic that a step sets is absent, or non-empty, free of brackets and within the configured length. */
  lemma TopicsOfStep(s: State, op: Op, c: Uuid)
    requires Inv(s) && Legal(s, op) && CanAct(s, op)
    requires c in Apply(s, op).channels && (c in s.channels ==> Apply(s, op).channels[c].topic != s.channels[c].topic)
    ensures var t := Apply(s, op).channels[c].topic;
            t.Some? ==> t.value != "" && T.BracketFree(t.value) && |t.value| <= s.conf.maxTopic
  {
    hide Inv, Legal, CanAct, Handle, HealthCheck, Disconnect, Accept, TextsKept, AddressesKept, PingsKept,
      ClientsEvolve, DeltaOf, T.Escape, T.BracketFree;
    StepKeeps(s, op);
    if c in s.channels {
      assert SameChannel(DeltaOf(s, op), c, s.channels[c], Apply(s, op).channels[c]);
      TunedByTopic(s, op, c);
    } else {
      MadeWithoutTopic(s, op, c);
    }
  }

  lemma TunedByTopic(s: State, op: Op, c: Uuid)
    requires c in s.channels && c in Apply(s, op).channels && c in DeltaOf(s, op).tuned
    requires Apply(s, op).channels[c].topic != s.channels[c].topic
    ensures var t := Apply(s, op).channels[c].topic;
            t.Some? ==> t.value != "" && T.BracketFree(t.value) && |t.value| <= s.conf.maxTopic
  {
    hide BanKills, MayKill, Handle, T.Escape, T.BracketFree, M.FlagsOf, M.Labels;
    var u := Touch(s, op.id, op.x.now);
    HandleIs(u, op.id, op.cmd, op.x);
    if op.cmd.ChangeTopic? {
      T.EscapeMeaning(op.cmd.topic);
    }
  }

  lemma MadeByJoin(s: State, op: Op, c: Uuid)
    requires c in DeltaOf(s, op).made
    ensures IsJoin(s, op)
  {
    hide BanKills, MayKill;
  }

  lemma MadeWithoutTopic(s: State, op: Op, c: Uuid)
    requires Inv(s) && Legal(s, op) && CanAct(s, op)
    requires c !in s.channels && c in Apply(s, op).channels
    ensures Apply(s, op).channels[c].topic == None
  {
    hide Inv, CanAct, Legal, Handle, HealthCheck, Disconnect, Accept, TextsKept, AddressesKept, PingsKept,
      ClientsEvolve, DeltaOf, Create, Enter, JoinTo, UuidText, LooksLikeV4, T.ChannelName;
    StepKeeps(s, op);
    MadeByJoin(s, op, c);
    var u := Touch(s, op.id, op.x.now);
    HandleIs(u, op.id, op.cmd, op.x);
    var text, found := JoinText(op.cmd.name, op.cmd.target), JoinFound(u, op.cmd.name, op.cmd.target, op.x.named);
    JoinChannelsAfter(u, op.id, text, found, op.x.newId);
    CreatedChannels(u, op.id, text, op.x.newId);
    if found.Some? {
      EnterChannels(u, op.id, found.value, false);
    }
  }
}
