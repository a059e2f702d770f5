/** What each command of a logged-in client does to the registries and to every outbox, told in terms of the state
    before it. */
module Effects {
  import opened Basics
  import opened Uuids
  import opened Messages
  import opened Machine
  import opened Invariants
  import opened SmallSteps
  import opened Steps
  import opened Delivery
  import M = Modes
  import T = Text

  /** A command is sent by a client that is not waiting for its login. */
  predicate Sender(s: State, id: Uuid) {
    id in s.clients && s.clients[id].status != PendingAuth
  }

  /** The clients with the timestamps of one of them brought up to date. */
  function Stamped(s: State, id: Uuid, now: Time): Clients
    requires id in s.clients
  {
    s.clients[id := s.clients[id].(lastAction := now, lastPing := now)]
  }

  /** The new state has these registries, and the rest is as before. */
  predicate Becomes(s: State, t: State, clients: Clients, channels: Channels) {
    t == State(s.conf, clients, channels, s.bans, t.outbox, s.issued)
  }

  /** Everybody in `to` was sent these messages, and nobody else anything. */
  ghost predicate Sent(s: State, t: State, to: set<Uuid>, msgs: seq<Msg>) {
    forall r: Uuid :: Box(t.outbox, r) == Box(s.outbox, r) + if r in to then msgs else []
  }

  /** Nothing happens but that the sender is told why. */
  ghost predicate Refused(s: State, t: State, id: Uuid, now: Time, code: Problem)
    requires id in s.clients
  {
    Becomes(s, t, Stamped(s, id, now), s.channels) && Sent(s, t, {id}, [Trouble(code)])
  }

  lemma TellRefuses(s: State, id: Uuid, now: Time)
    requires id in s.clients
    ensures forall code :: Refused(s, Tell(Touch(s, id, now), id, code), id, now, code)
  {
  }

  lemma SentOnce(s: State, to: set<Uuid>, m: Msg)
    ensures Sent(s, Cast(s, to, m), to, [m])
  {
  }

  lemma SentTwice(s: State, to: set<Uuid>, m1: Msg, m2: Msg)
    ensures Sent(s, Cast(Cast(s, to, m1), to, m2), to, [m1, m2])
  {
    forall r: Uuid
      ensures Box(Cast(Cast(s, to, m1), to, m2).outbox, r) == Box(s.outbox, r) + if r in to then [m1, m2] else []
    {
      assert Box(s.outbox, r) + [m1] + [m2] == Box(s.outbox, r) + [m1, m2];
    }
  }

  /** New settings of a channel, announced by two messages. */
  lemma Announced(s: State, id: Uuid, now: Time, c: Uuid, ch: ChannelRec, m1: Msg, m2: Msg)
    requires id in s.clients && c in s.channels
    ensures var u := Touch(s, id, now).(channels := s.channels[c := ch]);
            var t := Cast(Cast(u, ch.members.Keys, m1), ch.members.Keys, m2);
            Becomes(s, t, Stamped(s, id, now), s.channels[c := ch]) && Sent(s, t, ch.members.Keys, [m1, m2])
  {
    SentTwice(Touch(s, id, now).(channels := s.channels[c := ch]), ch.members.Keys, m1, m2);
    hide Deliver;
  }

  lemma Nothing(s: State, id: Uuid, now: Time)
    requires id in s.clients
    ensures var t := Touch(s, id, now);
            Becomes(s, t, Stamped(s, id, now), s.channels) && forall msgs :: Sent(s, t, {}, msgs)
  {
  }

  // Authority over a channel


  lemma OwnsIs(s: State, id: Uuid, c: Uuid)
    requires Inv(s) && id in s.clients && c in s.channels
    ensures Owns(s.channels[c], s.clients[id]) <==> s.clients[id].kind == Agent || s.channels[c].owner == Some(id)
  {
    OpenInv(s);
    hide Inv, Index, Standing, Names, Mail, Topics;
  }

  /** A kick: who may, whom it removes, and who is told. */
  lemma KickEffect(s: State, id: Uuid, x: Chance, c: Uuid, user: Uuid, reason: string)
    requires Inv(s) && Sender(s, id)
    ensures var t := Apply(s, Issue(id, KickMember(c, user, reason), x));
            if c !in s.channels then Refused(s, t, id, x.now, ChannelInvalid)
            else if s.clients[id].kind != Agent && s.channels[c].owner != Some(id) then
              Refused(s, t, id, x.now, PermissionDenied)
            else if user !in s.channels[c].members then Refused(s, t, id, x.now, NotMember)
            else
              var clients, ch := Stamped(s, id, x.now), s.channels[c];
              && user in clients
              && Becomes(s, t, clients[user := clients[user].(channels := clients[user].channels - {c})],
                         s.channels[c := ch.(members := ch.members - {user})])
              && Sent(s, t, ch.members.Keys, [Kick(c, user, reason)])
  {
    var u := Touch(s, id, x.now);
    TellRefuses(s, id, x.now);
    HandleIs(u, id, KickMember(c, user, reason), x);
    if c in s.channels {
      OwnsIs(s, id, c);
      MembersIssued(s, c);
      SentOnce(u, s.channels[c].members.Keys, Kick(c, user, reason));
    }
    hide Inv, Handle, Tell, Deliver, Refused, HealthCheck, Disconnect, Accept;
  }

  /** Agents decide about all modes, others about Invite Only and Secret. */
  function NewModes(s: State, id: Uuid, c: Uuid, modes: M.U64): M.Options
    requires id in s.clients && c in s.channels
  {
    set f: M.Flag |
      if s.clients[id].kind == Agent || f == M.InviteOnly || f == M.Secret then M.Marked(modes, f)
      else f in s.channels[c].options
  }

  /** A mode change: who may, which modes result, and who is told. Owners do not reach the private modes. */
  lemma ModesEffect(s: State, id: Uuid, x: Chance, c: Uuid, modes: M.U64)
    requires Inv(s) && Sender(s, id)
    ensures var t := Apply(s, Issue(id, ChangeModes(c, modes), x));
            if c !in s.channels then Refused(s, t, id, x.now, ChannelInvalid)
            else if s.clients[id].kind != Agent && s.channels[c].owner != Some(id) then
              Refused(s, t, id, x.now, PermissionDenied)
            else
              var ch := s.channels[c];
              var after := NewModes(s, id, c, modes);
              && Becomes(s, t, Stamped(s, id, x.now), s.channels[c := ch.(options := after)])
              && Sent(s, t, if after == ch.options then {} else ch.members.Keys,
                      [Text(c, NIL, s.clients[id].name, "has changed the channel modes."),
                       ChannelModes(c, M.Labels(after))])
  {
    hide *;
    SenderIs(s, id);
    var u, cmd := Touch(s, id, x.now), ChangeModes(c, modes);
    TouchedSame(s, id, cmd, x);
    HandleIs(u, id, cmd, x);
    TellRefuses(s, id, x.now);
    ModesIs(s, u, id, c, modes);
    if c in s.channels {
      var ch, after := s.channels[c], NewModes(s, id, c, modes);
      Nothing(s, id, x.now);
      assert after == ch.options ==> ch.(options := after) == ch;
      SameEntry(s.channels, c);
      Announced(s, id, x.now, c, ch.(options := after),
                Text(c, NIL, s.clients[id].name, "has changed the channel modes."), ChannelModes(c, M.Labels(after)));
    }
  }

  lemma SenderIs(s: State, id: Uuid)
    requires Sender(s, id)
    ensures id in s.clients && s.clients[id].status != PendingAuth
  {
  }

  lemma SameEntry(channels: Channels, c: Uuid)
    requires c in channels
    ensures channels[c := channels[c]] == channels
  {
  }

  lemma ModesIs(s: State, u: State, id: Uuid, c: Uuid, modes: M.U64)
    requires Inv(s) && id in s.clients && u.channels == s.channels && id in u.clients
    requires u.clients[id] == s.clients[id].(lastAction := u.clients[id].lastAction, lastPing := u.clients[id].lastPing)
    ensures SetModes(u, id, c, modes) ==
            if c !in s.channels then Tell(u, id, ChannelInvalid)
            else if s.clients[id].kind != Agent && s.channels[c].owner != Some(id) then Tell(u, id, PermissionDenied)
            else
              var after, to := NewModes(s, id, c, modes), s.channels[c].members.Keys;
              var v := u.(channels := s.channels[c := s.channels[c].(options := after)]);
              if after == s.channels[c].options then u
              else Cast(Cast(v, to, Text(c, NIL, s.clients[id].name, "has changed the channel modes.")),
                        to, ChannelModes(c, M.Labels(after)))
  {
    hide Inv, Deliver, Cast, M.Labels, M.Marked, ModesAfter, NewModes, Tell, Owns;
    if c in s.channels {
      OwnsIs(s, id, c);
      SameAuthority(s.channels[c], s.clients[id], u.clients[id]);
      ModesAfterIs(s, id, c, u.clients[id], modes);
    }
  }

  lemma SameAuthority(ch: ChannelRec, a: ClientRec, b: ClientRec)
    requires a.id == b.id && a.kind == b.kind
    ensures Owns(ch, a) <==> Owns(ch, b)
  {
  }

  lemma ModesAfterIs(s: State, id: Uuid, c: Uuid, who: ClientRec, modes: M.U64)
    requires id in s.clients && c in s.channels && who.kind == s.clients[id].kind
    ensures ModesAfter(s.channels[c], who, modes) == NewModes(s, id, c, modes)
  {
    hide M.Marked;
  }

  /** A topic change: who may, which topic results, and who is told. Three characters are charged for each bracket. */
  lemma TopicEffect(s: State, id: Uuid, x: Chance, c: Uuid, topic: string)
    requires Inv(s) && Sender(s, id)
    ensures var t := Apply(s, Issue(id, ChangeTopic(c, topic), x));
            if c !in s.channels then Refused(s, t, id, x.now, ChannelInvalid)
            else if s.clients[id].kind != Agent && s.channels[c].owner != Some(id) then
              Refused(s, t, id, x.now, PermissionDenied)
            else if |topic| + 3 * T.Brackets(topic) > s.conf.maxTopic then Refused(s, t, id, x.now, InvalidArgument)
            else
              var ch, clean := s.channels[c], T.EscapeOnce(topic);
              && Becomes(s, t, Stamped(s, id, x.now),
                         s.channels[c := ch.(topic := if topic == "" then None else Some(clean))])
              && Sent(s, t, ch.members.Keys,
                      [Text(c, NIL, s.clients[id].name, "has changed the channel topic."), Topic(c, clean)])
  {
    var u := Touch(s, id, x.now);
    TellRefuses(s, id, x.now);
    HandleIs(u, id, ChangeTopic(c, topic), x);
    TouchedSame(s, id, ChangeTopic(c, topic), x);
    T.EscapeMeaning(topic);
    if c in s.channels {
      var ch, clean := s.channels[c], T.Escape(topic);
      OwnsIs(s, id, c);
      assert clean == "" <==> topic == "";
      Announced(s, id, x.now, c, ch.(topic := if clean == "" then None else Some(clean)),
                Text(c, NIL, s.clients[id].name, "has changed the channel topic."), Topic(c, clean));
    }
    hide Inv, Handle, Tell, Cast, Refused, Apply, T.Escape, T.EscapeOnce, T.Brackets, Becomes, Sent;
  }

  // Texts, the list of channels, and parts

  /** The agents inside if messages are hidden, else everybody inside but the speaker. */
  function HearersIn(s: State, id: Uuid, c: Uuid): set<Uuid>
    requires c in s.channels
  {
    set r | r in s.channels[c].members && r in s.clients
      && (if M.HiddenMessages in s.channels[c].options then s.clients[r].kind == Agent else r != id)
  }

  /** A text: only members are heard, by the agents inside or by all others inside, and brackets are escaped. */
  lemma SayEffect(s: State, id: Uuid, x: Chance, c: Uuid, text: string)
    requires Inv(s) && Sender(s, id)
    ensures var t := Apply(s, Issue(id, SayText(c, text), x));
            var to := if c in s.channels && id in s.channels[c].members then HearersIn(s, id, c) else {};
            && Becomes(s, t, Stamped(s, id, x.now), s.channels)
            && Sent(s, t, to, [Text(c, id, s.clients[id].name, T.EscapeOnce(text))])
  {
    hide *;
    SenderIs(s, id);
    var u, cmd := Touch(s, id, x.now), SayText(c, text);
    TouchedSame(s, id, cmd, x);
    HandleIs(u, id, cmd, x);
    Nothing(s, id, x.now);
    T.EscapeMeaning(text);
    SayIs(s, u, id, c, text);
    if c in s.channels && id in s.channels[c].members {
      CastSends(s, id, x.now, HearersIn(s, id, c), Text(c, id, s.clients[id].name, T.Escape(text)));
    }
  }

  /** The list of channels goes to the sender alone: invisible and secret channels are on nobody's list, agent-only
      channels on the lists of agents. */
  lemma ListEffect(s: State, id: Uuid, x: Chance) returns (rows: map<Uuid, Row>)
    requires Inv(s) && Sender(s, id)
    ensures var t := Apply(s, Issue(id, ListChannels, x));
            Becomes(s, t, Stamped(s, id, x.now), s.channels) && Sent(s, t, {id}, [ChannelList(rows)])
    ensures forall c :: c in rows <==>
              && c in s.channels
              && M.Invisible !in s.channels[c].options && M.Secret !in s.channels[c].options
              && (M.AgentOnly in s.channels[c].options ==> s.clients[id].kind == Agent)
    ensures forall c :: c in rows ==>
              && c in s.channels
              && rows[c].name == s.channels[c].name
              && rows[c].topic == (if s.channels[c].topic.Some? then s.channels[c].topic.value else "")
              && rows[c].members == |s.channels[c].members.Keys|
              && M.FlagsOf(rows[c].modes) == s.channels[c].options
  {
    hide *;
    SenderIs(s, id);
    var u, cmd := Touch(s, id, x.now), ListChannels;
    rows := ListFor(s.channels, s.clients[id].kind);
    TouchedSame(s, id, cmd, x);
    HandleIs(u, id, cmd, x);
    CastSends(s, id, x.now, {id}, ChannelList(rows));
    ListIs(u, id);
    RowsAre(s.channels, s.clients[id].kind);
  }

  lemma ListIs(u: State, id: Uuid)
    requires id in u.clients
    ensures ListTo(u, id) == Cast(u, {id}, ChannelList(ListFor(u.channels, u.clients[id].kind)))
  {
    hide ListFor, Cast;
  }

  lemma RowsAre(channels: Channels, kind: ClientType)
    ensures var rows := ListFor(channels, kind);
            && (forall c :: c in rows <==>
                  && c in channels
                  && M.Invisible !in channels[c].options && M.Secret !in channels[c].options
                  && (M.AgentOnly in channels[c].options ==> kind == Agent))
            && (forall c :: c in rows ==>
                  && c in channels
                  && rows[c].name == channels[c].name
                  && rows[c].topic == (if channels[c].topic.Some? then channels[c].topic.value else "")
                  && rows[c].members == |channels[c].members.Keys|
                  && M.FlagsOf(rows[c].modes) == channels[c].options)
  {
    hide M.FlagsOf, M.WordOf;
    forall c | c in channels
      ensures M.FlagsOf(M.WordOf(channels[c].options)) == channels[c].options
      ensures |channels[c].members| == |channels[c].members.Keys|
    {
      M.WordRoundTrip(channels[c].options, 0);
      Sizes(channels[c].members);
    }
  }

  lemma Sizes(members: map<Uuid, Member>)
    ensures |members| == |members.Keys|
  {
  }

  lemma CastSends(s: State, id: Uuid, now: Time, to: set<Uuid>, m: Msg)
    requires id in s.clients
    ensures var t := Cast(Touch(s, id, now), to, m);
            Becomes(s, t, Stamped(s, id, now), s.channels) && Sent(s, t, to, [m])
  {
  }

  lemma SayIs(s: State, u: State, id: Uuid, c: Uuid, text: string)
    requires Inv(s) && id in s.clients && id in u.clients && u.channels == s.channels
    requires u.clients[id].name == s.clients[id].name
    ensures Say(u, id, c, text) ==
            if c !in s.channels || id !in s.channels[c].members then u
            else Cast(u, HearersIn(s, id, c), Text(c, id, s.clients[id].name, T.Escape(text)))
  {
    hide Inv, T.Escape, Deliver;
    if c in s.channels {
      MemberClones(s, c);
      assert Hearers(s.channels[c], id) == HearersIn(s, id, c);
    }
    hide Hearers, HearersIn;
  }

  /** Commands that have no effect: a second login, a device login and whatever the dispatcher does not know. */
  lemma IgnoredEffect(s: State, id: Uuid, x: Chance, cmd: Command)
    requires id in s.clients
    requires if s.clients[id].status == PendingAuth then cmd.DeviceLogin?
             else cmd.GuestLogin? || cmd.AgentLogin? || cmd.DeviceLogin? || cmd.OtherCommand?
    ensures var t := Apply(s, Issue(id, cmd, x));
            Becomes(s, t, Stamped(s, id, x.now), s.channels) && Sent(s, t, {}, [])
  {
    hide *;
    TouchedSame(s, id, cmd, x);
    HandleIs(Touch(s, id, x.now), id, cmd, x);
    Nothing(s, id, x.now);
  }

  /** A part: who may, what becomes of the channel, and who is told. The leaver may lack the permission to part, or the
      channel may be one that only agents with Admin can leave. */
  lemma PartEffect(s: State, id: Uuid, x: Chance, c: Uuid, r: Uuid)
    requires Inv(s) && Sender(s, id)
    ensures var t, options := Apply(s, Issue(id, PartChannel(c), x)), s.clients[id].options;
            if Admin !in options && PartChannels !in options then Refused(s, t, id, x.now, PermissionDenied)
            else if c !in s.channels then Refused(s, t, id, x.now, ChannelInvalid)
            else if id !in s.channels[c].members then Refused(s, t, id, x.now, NotMember)
            else if M.CanNotLeave in s.channels[c].options && !(s.clients[id].kind == Agent && Admin in options) then
              Refused(s, t, id, x.now, PermissionDenied)
            else
              var ch := s.channels[c];
              && Becomes(s, t, Stamped(s, id, x.now),
                         if ch.members.Keys == {id} && M.Persist !in ch.options then s.channels - {c}
                         else s.channels[c := ch.(members := ch.members - {id})])
              && Box(t.outbox, r) == Box(s.outbox, r) + PartMail(s, id, c, r)
  {
    hide *;
    SenderIs(s, id);
    var u, cmd := Touch(s, id, x.now), PartChannel(c);
    TouchedSame(s, id, cmd, x);
    HandleIs(u, id, cmd, x);
    TellRefuses(s, id, x.now);
    PartIs(s, u, id, c);
    if c in s.channels && id in s.channels[c].members {
      LeaveEffect(s, id, x.now, c, r);
    }
  }

  /** The messages about a part: the leaver's own copy, and one for each member that stays, unless the member list is
      hidden or the channel is invisible; only agents are shown the address. */
  function PartMail(s: State, id: Uuid, c: Uuid, r: Uuid): seq<Msg>
    requires id in s.clients && c in s.channels
  {
    var ch := s.channels[c];
    if r == id then [Part(c, id, MASKED)]
    else if r in ch.members && M.HiddenMemberList !in ch.options && M.Invisible !in ch.options then
      [Part(c, id, if r in s.clients && s.clients[r].kind == Agent then s.clients[id].ip else MASKED)]
    else []
  }

  lemma PartIs(s: State, u: State, id: Uuid, c: Uuid)
    requires id in s.clients && id in u.clients && u.channels == s.channels
    requires u.clients[id] == s.clients[id].(lastAction := u.clients[id].lastAction, lastPing := u.clients[id].lastPing)
    ensures var options := s.clients[id].options;
            PartFrom(u, id, c) ==
              if Admin !in options && PartChannels !in options then Tell(u, id, PermissionDenied)
              else if c !in s.channels then Tell(u, id, ChannelInvalid)
              else if id !in s.channels[c].members then Tell(u, id, NotMember)
              else if M.CanNotLeave in s.channels[c].options && !(s.clients[id].kind == Agent && Admin in options) then
                Tell(u, id, PermissionDenied)
              else Leave(u, id, c)
  {
    hide Tell, Leave;
  }

  lemma LeaveEffect(s: State, id: Uuid, now: Time, c: Uuid, r: Uuid)
    requires Inv(s) && id in s.clients && c in s.channels && id in s.channels[c].members
    ensures var t, ch := Leave(Touch(s, id, now), id, c), s.channels[c];
            && Becomes(s, t, Stamped(s, id, now),
                       if ch.members.Keys == {id} && M.Persist !in ch.options then s.channels - {c}
                       else s.channels[c := ch.(members := ch.members - {id})])
            && Box(t.outbox, r) == Box(s.outbox, r) + PartMail(s, id, c, r)
  {
    var u, ch := Touch(s, id, now), s.channels[c];
    var s0, rest := Cast(u, {id}, Part(c, id, MASKED)), Without(ch, id);
    var s1 := RemoveMember(s0, c, id);
    var s2 := BroadcastPart(s1, rest, id, s.clients[id].ip);
    assert Leave(u, id, c) == Reap(s2, c) && s1 == u.(channels := s.channels[c := rest], outbox := s0.outbox);
    assert rest.options == ch.options && rest.id == ch.id && id !in rest.members;
    assert r != id ==> (r in rest.members <==> r in ch.members);
    assert r in rest.members ==> rest.members[r] == ch.members[r];
    assert ch.id == c by { OpenInv(s); }
    hide *;
    Nothing(s, id, now);
    BecomesIs(s, u, Stamped(s, id, now), s.channels);
    PartBoxes(s1, rest, id, s.clients[id].ip, r);
    SentOnce(u, {id}, Part(c, id, MASKED));
    SentBox(u, s0, {id}, [Part(c, id, MASKED)], r);
    LeftRegistries(s, s2, c, id);
    MemberIsAgent(s, c, r);
    PartMailIs(s, id, c, r);
    BecomesIs(s, Reap(s2, c), Stamped(s, id, now),
              if ch.members.Keys == {id} && M.Persist !in ch.options then s.channels - {c}
              else s.channels[c := ch.(members := ch.members - {id})]);
  }

  lemma SentBox(s: State, t: State, to: set<Uuid>, msgs: seq<Msg>, r: Uuid)
    requires Sent(s, t, to, msgs)
    ensures Box(t.outbox, r) == Box(s.outbox, r) + if r in to then msgs else []
  {
  }

  lemma PartMailIs(s: State, id: Uuid, c: Uuid, r: Uuid)
    requires id in s.clients && c in s.channels
    ensures var ch := s.channels[c];
            PartMail(s, id, c, r) ==
              if r == id then [Part(c, id, MASKED)]
              else if r in ch.members && M.HiddenMemberList !in ch.options && M.Invisible !in ch.options then
                [Part(c, id, if IsAgent(s.clients, r) then s.clients[id].ip else MASKED)]
              else []
  {
  }

  lemma LeftRegistries(s: State, t: State, c: Uuid, id: Uuid)
    requires c in s.channels && id in s.channels[c].members && t.channels == s.channels[c := Without(s.channels[c], id)]
    ensures var ch := s.channels[c];
            Reap(t, c) == t.(channels :=
              if ch.members.Keys == {id} && M.Persist !in ch.options then s.channels - {c}
              else s.channels[c := ch.(members := ch.members - {id})])
  {
    Emptied(s.channels[c].members, id);
  }

  lemma PartBoxes(s: State, ch: ChannelRec, who: Uuid, ip: Ip, r: Uuid)
    ensures BroadcastPart(s, ch, who, ip) == s.(outbox := BroadcastPart(s, ch, who, ip).outbox)
    ensures Box(BroadcastPart(s, ch, who, ip).outbox, r) == Box(s.outbox, r) +
            if r in ch.members && M.HiddenMemberList !in ch.options && M.Invisible !in ch.options
            then [Part(ch.id, who, if ch.members[r].kind == Agent then ip else MASKED)] else []
  {
  }

  lemma Emptied(members: map<Uuid, Member>, id: Uuid)
    requires id in members
    ensures members - {id} == map[] <==> members.Keys == {id}
  {
    if members - {id} == map[] {
      forall k | k in members ensures k == id {
        assert k != id ==> k in members - {id};
      }
      assert members.Keys == {id};
    }
  }

  lemma MemberIsAgent(s: State, cid: Uuid, r: Uuid)
    requires Inv(s) && cid in s.channels
    ensures r in s.channels[cid].members ==> (s.channels[cid].members[r].kind == Agent <==> IsAgent(s.clients, r))
  {
    MemberClones(s, cid);
    hide Inv;
  }

  lemma Regroup(a: seq<Msg>, b: seq<Msg>, c: seq<Msg>, d: seq<Msg>)
    ensures a + b + c + d == a + (b + c + d)
    ensures a + [] == a
  {
  }

  lemma RefusedParts(s: State, t: State, id: Uuid, now: Time, code: Problem)
    requires id in s.clients
    ensures Refused(s, t, id, now, code) ==> t.channels == s.channels && t.clients.Keys == s.clients.Keys
  {
  }

  lemma BecomesIs(s: State, t: State, clients: Clients, channels: Channels)
    ensures Becomes(s, t, clients, channels) <==> t == State(s.conf, clients, channels, s.bans, t.outbox, s.issued)
  {
  }
}
