/** Every handler keeps the invariant, and changes no more than its delta allows. */
module Handlers {
  import opened Basics
  import opened Uuids
  import opened Messages
  import opened Machine
  import opened Invariants
  import opened SmallSteps
  import opened Departure
  import M = Modes
  import T = Text

  lemma RefusalKeeps(d: Delta, s: State, actor: Uuid, code: Problem)
    requires Inv(s) && actor in s.clients && d.ins !! d.outs
    ensures Inv(Tell(s, actor, code)) && Evolves(d, s, Tell(s, actor, code))
  {
    hide Inv, Evolves;
    assert actor in s.issued by { OpenInv(s); }
    GoneStill(d, s);
    PlainOn(d, s, s, {actor}, Trouble(code));
  }

  // Leaving

  lemma LeaveKeeps(s: State, actor: Uuid, cid: Uuid)
    requires Inv(s) && actor in s.clients && cid in s.channels
    ensures Inv(Leave(s, actor, cid)) && Evolves(Gone(actor), s, Leave(s, actor, cid))
  {
    hide Inv, Evolves;
    var d, ip, m := Gone(actor), s.clients[actor].ip, Part(cid, actor, MASKED);
    assert actor in s.issued && cid in s.issued by { OpenInv(s); }
    assert ChannelIds(s.channels, s.issued) && ClientIds(s.clients, s.issued) by { OpenInv(s); }
    assert Plain(s.issued, m) && d.ins !! d.outs && Plus(STILL, d) == d;
    var s1 := Cast(s, {actor}, m);
    var s2 := RemoveMember(s1, cid, actor);
    var s3 := BroadcastPart(s2, s2.channels[cid], actor, ip);
    assert cid in s1.channels && cid in s2.channels && cid in s3.channels;
    assert Leave(s, actor, cid) == Reap(s3, cid);
    hide *;
    Unmoved(s);
    assert STILL.ins !! STILL.outs by { StillDisjoint(); }
    PlainOn(STILL, s, s, {actor}, m);
    RemoveKeeps(s1, cid, actor);
    EvolveOn(STILL, d, s, s1, s2);
    BroadcastPartKeeps(s2, cid, actor, ip);
    StillOn(d, s, s2, s3);
    ReapKeeps(s3, cid);
    StillOn(d, s, s3, Reap(s3, cid));
  }

  lemma StillDisjoint()
    ensures STILL.ins !! STILL.outs
  {
  }

  lemma PartKeeps(s: State, actor: Uuid, cid: Uuid)
    requires Inv(s) && actor in s.clients
    ensures Inv(PartFrom(s, actor, cid)) && Evolves(Gone(actor), s, PartFrom(s, actor, cid))
  {
    hide Inv, Evolves, Leave, Tell;
    RefusalKeeps(Gone(actor), s, actor, PermissionDenied);
    RefusalKeeps(Gone(actor), s, actor, ChannelInvalid);
    RefusalKeeps(Gone(actor), s, actor, NotMember);
    if cid in s.channels {
      LeaveKeeps(s, actor, cid);
    }
  }

  // Kicking

  lemma UnlistedIndex(clients: Clients, channels: Channels, user: Uuid, cid: Uuid)
    requires Index(clients, channels) && user in clients
    requires cid in channels ==> user !in channels[cid].members
    ensures Index(clients[user := clients[user].(channels := clients[user].channels - {cid})], channels)
  {
    var after := clients[user := clients[user].(channels := clients[user].channels - {cid})];
    forall x | x in channels ensures Listed(after, x, channels[x]) {
      assert Listed(clients, x, channels[x]);
    }
  }

  lemma UnlistedClients(clients: Clients, issued: set<Uuid>, user: Uuid, cid: Uuid)
    requires ClientIds(clients, issued) && Standing(clients) && Names(clients) && user in clients
    ensures var after := clients[user := clients[user].(channels := clients[user].channels - {cid})];
            ClientIds(after, issued) && Standing(after) && Names(after)
              && ClientsEvolve(Gone(user), clients, issued, after)
  {
    assert StandingOf(clients[user]);
  }

  /** Taking a channel out of a client's list, once the client is no longer a member. */
  lemma UnlistKeeps(s: State, user: Uuid, cid: Uuid)
    requires Inv(s) && user in s.clients
    requires cid in s.channels ==> user !in s.channels[cid].members
    ensures var c := s.clients[user];
            var t := s.(clients := s.clients[user := c.(channels := c.channels - {cid})]);
            Inv(t) && Evolves(Gone(user), s, t)
  {
    hide Inv, Mail, Topics, ChannelIds, TextsKept, AddressesKept, PingsKept, ChannelsEvolve, Index, ClientIds,
      Standing, Names, ClientsEvolve;
    OpenInv(s);
    var c := s.clients[user];
    var t := s.(clients := s.clients[user := c.(channels := c.channels - {cid})]);
    UnlistedIndex(s.clients, s.channels, user, cid);
    UnlistedClients(s.clients, s.issued, user, cid);
    MailFrame(s.clients, s.outbox, s.issued, t.clients, s.issued);
    SameChannels(Gone(user), s.channels, s.issued);
    SameTexts(s.outbox);
    CloseInv(t);
  }

  ghost predicate MayKick(s: State, actor: Uuid, cid: Uuid, user: Uuid)
    requires actor in s.clients
  {
    cid in s.channels && Owns(s.channels[cid], s.clients[actor]) && user in s.channels[cid].members && user in s.clients
  }

  /** What a permitted kick does. */
  lemma KickParts(s: State, actor: Uuid, cid: Uuid, user: Uuid, reason: string)
    requires actor in s.clients && MayKick(s, actor, cid, user)
    ensures var t, ch, c := KickFrom(s, actor, cid, user, reason), s.channels[cid], s.clients[user];
            && t.outbox == Cast(s, ch.members.Keys, Kick(cid, user, reason)).outbox
            && t.channels == s.channels[cid := Without(ch, user)]
            && t.clients == s.clients[user := c.(channels := c.channels - {cid})]
  {
    hide Deliver;
  }

  lemma KickPermitted(s: State, actor: Uuid, cid: Uuid, user: Uuid, reason: string)
    requires Inv(s) && actor in s.clients && MayKick(s, actor, cid, user)
    ensures var t := KickFrom(s, actor, cid, user, reason); Inv(t) && Evolves(Gone(user), s, t)
  {
    hide Inv, Evolves;
    var d, m := Gone(user), Kick(cid, user, reason);
    MembersIssued(s, cid);
    assert ChannelIds(s.channels, s.issued) && ClientIds(s.clients, s.issued) by { OpenInv(s); }
    assert Plain(s.issued, m) && d.ins !! d.outs && Plus(STILL, d) == d && Plus(d, d) == d;
    var to := s.channels[cid].members.Keys;
    var s1 := Cast(s, to, m);
    var s2 := RemoveMember(s1, cid, user);
    var c := s2.clients[user];
    var t := s2.(clients := s2.clients[user := c.(channels := c.channels - {cid})]);
    assert t == KickFrom(s, actor, cid, user, reason);
    assert cid in s1.channels && user in s2.clients && user !in s2.channels[cid].members
      && d.ins + d.ins !! d.outs + d.outs;
    hide *;
    Unmoved(s);
    StillDisjoint();
    PlainOn(STILL, s, s, to, m);
    RemoveKeeps(s1, cid, user);
    EvolveOn(STILL, d, s, s1, s2);
    UnlistKeeps(s2, user, cid);
    EvolveOn(d, d, s, s2, t);
  }

  lemma KickKeeps(s: State, actor: Uuid, cid: Uuid, user: Uuid, reason: string)
    requires Inv(s) && actor in s.clients
    ensures var t := KickFrom(s, actor, cid, user, reason); Inv(t) && Evolves(Gone(user), s, t)
  {
    if MayKick(s, actor, cid, user) {
      hide Inv, Evolves, KickFrom;
      KickPermitted(s, actor, cid, user, reason);
    } else {
      hide Inv, Evolves, Tell;
      RefusalKeeps(Gone(user), s, actor, ChannelInvalid);
      RefusalKeeps(Gone(user), s, actor, PermissionDenied);
      RefusalKeeps(Gone(user), s, actor, NotMember);
    }
  }

  // Modes and topics

  function Tuned(cid: Uuid): Delta {
    Delta({}, {}, {}, {}, {cid}, false)
  }

  lemma TunedIndex(clients: Clients, channels: Channels, cid: Uuid, ch: ChannelRec)
    requires Index(clients, channels) && cid in channels && ch.members == channels[cid].members
    ensures Index(clients, channels[cid := ch])
  {
    assert Listed(clients, cid, channels[cid]);
  }

  lemma TunedChannels(channels: Channels, issued: set<Uuid>, cid: Uuid, ch: ChannelRec)
    requires ChannelIds(channels, issued) && Topics(channels) && cid in channels
    requires ch == channels[cid].(topic := ch.topic, options := ch.options) && TopicFine(ch.topic)
    ensures var after := channels[cid := ch];
            ChannelIds(after, issued) && Topics(after) && ChannelsEvolve(Tuned(cid), channels, issued, after)
  {
    assert SameChannel(Tuned(cid), cid, channels[cid], ch);
    assert ch.id == cid;
    forall c | c in channels && c != cid ensures SameChannel(Tuned(cid), c, channels[c], channels[c]) {
    }
  }

  lemma TuneKeeps(s: State, cid: Uuid, ch: ChannelRec)
    requires Inv(s) && cid in s.channels
    requires ch == s.channels[cid].(topic := ch.topic, options := ch.options) && TopicFine(ch.topic)
    ensures var t := s.(channels := s.channels[cid := ch]); Inv(t) && Evolves(Tuned(cid), s, t)
  {
    hide Inv, Mail, Names, Standing, TextsKept, AddressesKept, PingsKept, ClientsEvolve, ClientIds, ChannelIds,
      Topics, Index, ChannelsEvolve;
    OpenInv(s);
    SameClients(Tuned(cid), s.clients, s.issued);
    SameTexts(s.outbox);
    TunedIndex(s.clients, s.channels, cid, ch);
    TunedChannels(s.channels, s.issued, cid, ch);
    CloseInv(s.(channels := s.channels[cid := ch]));
  }

  /** New settings for a channel, followed by announcements to its members. */
  lemma SettingsKeep(s: State, cid: Uuid, ch: ChannelRec, m1: Msg, m2: Msg)
    requires Inv(s) && cid in s.channels
    requires ch == s.channels[cid].(topic := ch.topic, options := ch.options) && TopicFine(ch.topic)
    requires Plain(s.issued, m1) && Plain(s.issued, m2)
    ensures var s1 := s.(channels := s.channels[cid := ch]);
            var t := Cast(Cast(s1, ch.members.Keys, m1), ch.members.Keys, m2);
            Inv(t) && Evolves(Tuned(cid), s, t)
  {
    hide Inv, Evolves, Plain;
    MembersIssued(s, cid);
    TuneKeeps(s, cid, ch);
    var s1 := s.(channels := s.channels[cid := ch]);
    var to := ch.members.Keys;
    PlainOn(Tuned(cid), s, s1, to, m1);
    PlainOn(Tuned(cid), s, Cast(s1, to, m1), to, m2);
  }

  lemma ModesKeep(s: State, actor: Uuid, cid: Uuid, modes: M.U64)
    requires Inv(s) && actor in s.clients
    ensures Inv(SetModes(s, actor, cid, modes)) && Evolves(Tuned(cid), s, SetModes(s, actor, cid, modes))
  {
    hide Inv, Evolves, ModesAfter, M.Labels, Tell, Deliver;
    RefusalKeeps(Tuned(cid), s, actor, ChannelInvalid);
    RefusalKeeps(Tuned(cid), s, actor, PermissionDenied);
    GoneStill(Tuned(cid), s);
    if cid in s.channels {
      var ch := s.channels[cid];
      var after := ModesAfter(ch, s.clients[actor], modes);
      TopicIsFine(s, cid);
      var m1 := Text(cid, NIL, s.clients[actor].name, "has changed the channel modes.");
      SettingsKeep(s, cid, ch.(options := after), m1, ChannelModes(cid, M.Labels(after)));
    }
  }

  lemma TopicIsFine(s: State, cid: Uuid)
    requires Inv(s) && cid in s.channels
    ensures TopicFine(s.channels[cid].topic)
  {
    OpenInv(s);
  }

  lemma TopicKeeps(s: State, actor: Uuid, cid: Uuid, topic: string)
    requires Inv(s) && actor in s.clients
    ensures Inv(SetTopic(s, actor, cid, topic)) && Evolves(Tuned(cid), s, SetTopic(s, actor, cid, topic))
  {
    hide Inv, Evolves, T.Escape, T.BracketFree, Tell, Deliver;
    RefusalKeeps(Tuned(cid), s, actor, ChannelInvalid);
    RefusalKeeps(Tuned(cid), s, actor, PermissionDenied);
    RefusalKeeps(Tuned(cid), s, actor, InvalidArgument);
    if cid in s.channels {
      var ch := s.channels[cid];
      var clean := T.Escape(topic);
      T.EscapeMeaning(topic);
      var m1 := Text(cid, NIL, s.clients[actor].name, "has changed the channel topic.");
      SettingsKeep(s, cid, ch.(topic := if clean == "" then None else Some(clean)), m1, Topic(cid, clean));
    }
  }

  lemma SayKeeps(s: State, actor: Uuid, cid: Uuid, text: string)
    requires Inv(s) && actor in s.clients
    ensures Inv(Say(s, actor, cid, text)) && Evolves(STILL.(loud := true), s, Say(s, actor, cid, text))
  {
    hide Inv, Evolves, T.Escape;
    var d := STILL.(loud := true);
    GoneStill(d, s);
    if cid in s.channels && actor in s.channels[cid].members {
      assert actor != NIL by { OpenInv(s); }
      MembersIssued(s, cid);
      var to, m := Hearers(s.channels[cid], actor), Text(cid, actor, s.clients[actor].name, T.Escape(text));
      assert to <= s.issued && IsUserText(m) && STILL.(loud := IsUserText(m)) == d;
      assert forall id :: May(s.clients, s.issued, id, m);
      CastKeeps(s, to, m);
      MailedStill(to, m);
    }
  }

  lemma ListKeeps(s: State, actor: Uuid)
    requires Inv(s) && actor in s.clients
    ensures Inv(ListTo(s, actor)) && Evolves(STILL, s, ListTo(s, actor))
  {
    var m := ChannelList(ListFor(s.channels, s.clients[actor].kind));
    assert Plain(s.issued, m);
    hide Inv, Evolves, Plain, ListFor;
    IdIssued(s, actor);
    StillDisjoint();
    Unmoved(s);
    PlainOn(STILL, s, s, {actor}, m);
  }

  // Kills and bans

  function Others(plan: seq<Victim>): set<Uuid> {
    set i | 0 <= i < |plan| :: plan[i].id
  }

  function Left(ids: set<Uuid>): Delta {
    Delta({}, ids, {}, {}, {}, false)
  }

  /** The part of a plan that is still to be done remains a plan for the clients that are still to go. */
  ghost predicate PlanFits(s: State, plan: seq<Victim>) {
    && (forall i :: 0 <= i < |plan| ==>
          plan[i].id in s.clients && Enumerates(plan[i].order, s.clients[plan[i].id].channels))
    && (forall i, j :: 0 <= i < j < |plan| ==> plan[i].id != plan[j].id)
  }

  lemma PlanRest(s: State, t: State, plan: seq<Victim>)
    requires PlanFits(s, plan) && plan != []
    requires t.clients == s.clients - Others(plan[..|plan| - 1])
    ensures var v := plan[|plan| - 1]; v.id in t.clients && Enumerates(v.order, t.clients[v.id].channels)
  {
    var n := |plan| - 1;
    assert plan[n].id !in Others(plan[..n]);
    assert t.clients[plan[n].id] == s.clients[plan[n].id];
  }

  /** A ban's kills: every planned client that is not an Admin goes, unless the reason is too long. */
  lemma {:induction false} KillAllKeeps(s: State, actor: Uuid, plan: seq<Victim>, reason: string)
    requires Inv(s) && actor in s.clients && s.clients[actor].kind == Agent
    requires PlanFits(s, plan) && actor !in Others(plan)
    ensures var t := KillAll(s, actor, plan, reason);
            && Inv(t) && Evolves(Left(KilledOf(s, plan, reason)), s, t) && t.bans == s.bans && t.issued == s.issued
            && t.clients == s.clients - KilledOf(s, plan, reason)
  {
    hide Inv, Evolves, Enumerates, Kill, Depart;
    if plan == [] {
      GoneStill(Left({}), s);
      assert KilledOf(s, plan, reason) == {};
    } else {
      var n := |plan| - 1;
      var v, u := plan[n], KillAll(s, actor, plan[..n], reason);
      OthersSnoc(plan);
      KillAllKeeps(s, actor, plan[..n], reason);
      KillMeaning(u, actor, v.id, reason, v.order);
      var t := Kill(u, actor, v.id, reason, v.order);
      assert t == KillAll(s, actor, plan, reason);
      KilledSnoc(s, u, actor, plan, reason);
      DepartParts(u, v.id);
      var before, d := Left(KilledOf(s, plan[..n], reason)), KillDelta(u, actor, v.id, reason);
      assert Plus(before, d) == Left(KilledOf(s, plan, reason));
      assert ClientIds(s.clients, s.issued) && ChannelIds(s.channels, s.issued) by { OpenInv(s); }
      hide KillAll, PlanFits, KilledOf, Others, KillDelta;
      EvolveOn(before, d, s, u, t);
    }
  }

  lemma KilledSnoc(s: State, u: State, actor: Uuid, plan: seq<Victim>, reason: string)
    requires plan != [] && PlanFits(s, plan) && actor in s.clients && s.clients[actor].kind == Agent
    requires actor !in Others(plan)
    requires u.clients == s.clients - KilledOf(s, plan[..|plan| - 1], reason)
    ensures var v := plan[|plan| - 1];
            && v.id in u.clients && u.clients[v.id] == s.clients[v.id]
            && actor in u.clients && u.clients[actor] == s.clients[actor]
            && KilledOf(s, plan, reason) ==
                 KilledOf(s, plan[..|plan| - 1], reason) + (if MayKill(u, actor, v.id, reason) then {v.id} else {})
            && (MayKill(u, actor, v.id, reason) ==> u.clients - {v.id} == s.clients - KilledOf(s, plan, reason))
            && (!MayKill(u, actor, v.id, reason) ==> u.clients == s.clients - KilledOf(s, plan, reason))
  {
    hide T.Escape;
    var n := |plan| - 1;
    OthersSnoc(plan);
    assert plan[n].id !in Others(plan[..n]);
    var v := plan[n].id;
    assert KilledOf(s, plan, reason) ==
           KilledOf(s, plan[..n], reason) + (if MayKill(u, actor, v, reason) then {v} else {});
  }

  lemma OthersSnoc(plan: seq<Victim>)
    requires plan != []
    ensures Others(plan) == Others(plan[..|plan| - 1]) + {plan[|plan| - 1].id}
  {
    assert plan == plan[..|plan| - 1] + [plan[|plan| - 1]];
  }

  /** Whom a ban really removes. */
  function KilledOf(s: State, plan: seq<Victim>, reason: string): set<Uuid> {
    if |T.Escape(reason)| > 255 then {}
    else set k | k in Others(plan) && k in s.clients && Admin !in s.clients[k].options
  }

  /** Whom a ban command removes from the server. */
  function BanKills(s: State, actor: Uuid, ip: Ip, reason: string, plan: seq<Victim>): set<Uuid>
    requires actor in s.clients
  {
    if s.clients[actor].kind != Agent || Banned(s.bans, ip) then {} else KilledOf(s, plan, BanReason(reason))
  }

  lemma KlineKeeps(s: State, actor: Uuid, ip: Ip, reason: string, plan: seq<Victim>)
    requires Inv(s) && actor in s.clients && Plans(s, KlineTargets(s, ip), plan)
    ensures var t := Kline(s, actor, ip, reason, plan);
            && Inv(t) && Evolves(Left(BanKills(s, actor, ip, reason, plan)), s, t)
            && t.clients == s.clients - BanKills(s, actor, ip, reason, plan)
            && t.bans == (if s.clients[actor].kind != Agent || Banned(s.bans, ip) then s.bans
                          else s.bans + [Ban(ip, reason, s.clients[actor].name)])
  {
    hide Inv, Evolves, Kline, Enumerates, Banned, BanReason, Plans, KilledOf;
    if s.clients[actor].kind == Agent && !Banned(s.bans, ip) {
      KlinePermitted(s, actor, ip, reason, plan);
    } else {
      KlineRefused(s, actor, ip, reason, plan);
    }
  }

  lemma KlineRefused(s: State, actor: Uuid, ip: Ip, reason: string, plan: seq<Victim>)
    requires Inv(s) && actor in s.clients && (s.clients[actor].kind != Agent || Banned(s.bans, ip))
    ensures var t := Kline(s, actor, ip, reason, plan);
            Inv(t) && Evolves(Left({}), s, t) && t.clients == s.clients && t.bans == s.bans
  {
    hide Inv, Evolves, Banned;
    RefusalKeeps(Left({}), s, actor, PermissionDenied);
    RefusalKeeps(Left({}), s, actor, AlreadyMember);
  }

  lemma KlinePermitted(s: State, actor: Uuid, ip: Ip, reason: string, plan: seq<Victim>)
    requires Inv(s) && actor in s.clients && Plans(s, KlineTargets(s, ip), plan)
    requires s.clients[actor].kind == Agent && !Banned(s.bans, ip)
    ensures var t, killed := Kline(s, actor, ip, reason, plan), KilledOf(s, plan, BanReason(reason));
            && Inv(t) && Evolves(Left(killed), s, t) && t.clients == s.clients - killed
            && t.bans == s.bans + [Ban(ip, reason, s.clients[actor].name)]
  {
    var why, killed := BanReason(reason), KilledOf(s, plan, BanReason(reason));
    var m := BanNotice(s.clients[actor].name, ip, |plan|, why);
    var s1 := s.(bans := s.bans + [Ban(ip, reason, s.clients[actor].name)]);
    var s2 := Cast(s1, WallopTo(s1), m);
    assert Kline(s, actor, ip, reason, plan) == KillAll(s2, actor, plan, why);
    assert s2.clients == s.clients && s2.bans == s1.bans && KilledOf(s2, plan, why) == killed;
    assert actor !in Others(plan) && PlanFits(s2, plan) by {
      hide Inv, Enumerates, KillAll, Kline, WallopTo, Deliver;
    }
    assert !IsRosterMsg(m) && !IsUserText(m) && STILL.ins !! STILL.outs && Left(killed).ins !! Left(killed).outs;
    hide *;
    BanKeeps(s, s1);
    WallopFine(s1, m);
    CastOn(STILL, s, s1, WallopTo(s1), m);
    KillAllKeeps(s2, actor, plan, why);
    OnStill(Left(killed), s, s2, KillAll(s2, actor, plan, why));
  }

  lemma BanKeeps(s: State, t: State)
    requires Inv(s) && t == s.(bans := t.bans)
    ensures Inv(t) && Evolves(STILL, s, t)
  {
    Unmoved(s);
  }

  // Joining and authentication

  function Made(id: Uuid, newId: Uuid): Delta {
    Delta({id}, {}, {newId}, {}, {}, false)
  }

  /** A new channel with its first member. */
  lemma CreateKeeps(s: State, actor: Uuid, name: string, newId: Uuid)
    requires Inv(s) && actor in s.clients && s.clients[actor].kind != Unknown && UnusedId(s, newId)
    ensures var t := Create(s, actor, name, newId); Inv(t) && Evolves(Made(actor, newId), s, t)
  {
    hide Inv, Evolves;
    var ch := ChannelRec(newId, name, Some(actor), map[], None, {M.ClientInvites, M.SaveHistory});
    var s1 := s.(channels := s.channels[newId := ch], issued := s.issued + {newId});
    var s2 := Admit(s1, actor, newId);
    var m := Join(newId, actor, s.clients[actor].name, MASKED);
    var d := Made(actor, newId);
    IdIssued(s, actor);
    RegisterKeeps(s, ch);
    assert ClientIds(s.clients, s.issued) && ChannelIds(s.channels, s.issued) && actor in s.issued by { OpenInv(s); }
    assert MayEnter(s1, actor, newId);
    assert Plain(s2.issued, m) && d.ins !! d.outs && actor in s2.issued;
    var d0 := Delta({}, {}, {newId}, {}, {}, false);
    assert Plus(d0, Came(actor)) == d && d0.ins + Came(actor).ins !! d0.outs + Came(actor).outs;
    assert Create(s, actor, name, newId) == Cast(s2, {actor}, m);
    hide *;
    AdmitKeeps(s1, actor, newId);
    EvolveOn(d0, Came(actor), s, s1, s2);
    PlainOn(d, s, s2, {actor}, m);
  }

  lemma RegisteredChannels(channels: Channels, issued: set<Uuid>, ch: ChannelRec)
    requires ChannelIds(channels, issued) && Topics(channels)
    requires ch.id !in issued && ch.members == map[] && TopicFine(ch.topic) && ch.owner != Some(NIL)
    ensures var after := channels[ch.id := ch];
            && ChannelIds(after, issued + {ch.id}) && Topics(after)
            && ChannelsEvolve(Delta({}, {}, {ch.id}, {}, {}, false), channels, issued, after)
  {
  }

  /** Registering an empty channel under a fresh id. */
  lemma RegisterKeeps(s: State, ch: ChannelRec)
    requires Inv(s) && UnusedId(s, ch.id) && ch.members == map[] && TopicFine(ch.topic) && ch.owner != Some(NIL)
    ensures var t := s.(channels := s.channels[ch.id := ch], issued := s.issued + {ch.id});
            Inv(t) && Evolves(Delta({}, {}, {ch.id}, {}, {}, false), s, t)
  {
    hide Inv, Mail, Names, Standing, TextsKept, AddressesKept, PingsKept, ChannelIds, Topics, TopicFine,
      ChannelsEvolve, ClientsEvolve;
    OpenInv(s);
    var t := s.(channels := s.channels[ch.id := ch], issued := s.issued + {ch.id});
    MailFrame(s.clients, s.outbox, s.issued, s.clients, t.issued);
    SameTexts(s.outbox);
    SameClients(Delta({}, {}, {ch.id}, {}, {}, false), s.clients, s.issued);
    RegisteredChannels(s.channels, s.issued, ch);
    CloseInv(t);
  }

  lemma JoinKeeps(s: State, actor: Uuid, channel: string, found: Option<Uuid>, newId: Uuid)
    requires Inv(s) && actor in s.clients && s.clients[actor].kind != Unknown && UnusedId(s, newId)
    requires found.Some? ==> found.value in s.channels
    ensures var t := JoinTo(s, actor, channel, found, newId); Inv(t) && Evolves(Made(actor, newId), s, t)
  {
    hide Inv, Evolves, Create, Enter, LooksLikeV4, T.ChannelName;
    var d := Made(actor, newId);
    RefusalKeeps(d, s, actor, PermissionDenied);
    RefusalKeeps(d, s, actor, AlreadyMember);
    RefusalKeeps(d, s, actor, ChannelInvalid);
    RefusalKeeps(d, s, actor, ChannelNameBad);
    if found.None? {
      CreateKeeps(s, actor, channel, newId);
    } else if MayEnter(s, actor, found.value) {
      EnterKeeps(s, actor, found.value, false);
      Widen(Came(actor), d, s, Enter(s, actor, found.value, false));
    }
  }

  /** A step stays inside any larger delta. */
  lemma NewChannelId(s: State, id: Uuid)
    requires Inv(s) && UnusedId(s, id)
    ensures id !in s.channels
  {
  }

  lemma Widen(a: Delta, b: Delta, s: State, t: State)
    requires Evolves(a, s, t)
    requires a.ins <= b.ins && a.outs <= b.outs && a.made <= b.made && a.who <= b.who && a.tuned <= b.tuned
             && (a.loud ==> b.loud)
    ensures Evolves(b, s, t)
  {
  }

  lemma SignInClients(clients: Clients, issued: set<Uuid>, id: Uuid, name: string, kind: ClientType,
                      options: set<Power>)
    requires ClientIds(clients, issued) && Standing(clients) && Names(clients) && id in clients
    requires clients[id].kind == Unknown && kind != Unknown && T.ClientName(name)
    requires forall k :: k in clients ==> clients[k].name != name
    ensures var after :=
              clients[id := clients[id].(name := name, kind := kind, options := options, status := Connected)];
            ClientIds(after, issued) && Standing(after) && Names(after)
              && ClientsEvolve(Changed(id), clients, issued, after)
  {
    hide T.ClientName;
    assert StandingOf(clients[id]);
  }

  lemma SignInIndex(clients: Clients, channels: Channels, id: Uuid, c: ClientRec)
    requires Index(clients, channels) && id in clients && clients[id].kind == Unknown
    ensures Index(clients[id := c], channels)
    ensures forall x :: x in channels ==> id !in channels[x].members
  {
    forall x | x in channels
      ensures Listed(clients[id := c], x, channels[x])
      ensures id !in channels[x].members
    {
      assert Listed(clients, x, channels[x]);
    }
  }

  lemma SignInKeeps(s: State, id: Uuid, name: string, kind: ClientType, options: set<Power>)
    requires Inv(s) && id in s.clients && s.clients[id].kind == Unknown && kind != Unknown
    requires !NameTaken(s, name) && T.ClientName(name)
    ensures var t := SignIn(s, id, name, kind, options);
            && Inv(t) && Evolves(Changed(id), s, t) && t.channels == s.channels
            && t.clients[id].kind == kind && t.clients[id].status == Connected
            && (forall c :: c in t.channels ==> id !in t.channels[c].members)
  {
    hide Inv, Mail, Names, Standing, TextsKept, AddressesKept, PingsKept, ClientsEvolve, ChannelsEvolve, ClientIds,
      ChannelIds, Topics, Index, T.ClientName;
    OpenInv(s);
    var c := s.clients[id].(name := name, kind := kind, options := options, status := Connected);
    var s1 := s.(clients := s.clients[id := c]);
    assert id in s.issued by { IdIssued(s, id); }
    SignInClients(s.clients, s.issued, id, name, kind, options);
    SignInIndex(s.clients, s.channels, id, c);
    MailFrame(s.clients, s.outbox, s.issued, s1.clients, s.issued);
    SameChannels(Changed(id), s.channels, s.issued);
    SameTexts(s.outbox);
    CloseInv(s1);
    assert Plain(s1.issued, AuthOk(id, name)) && Changed(id).ins !! Changed(id).outs;
    assert Evolves(Changed(id), s, s1);
    hide Evolves;
    PlainOn(Changed(id), s, s1, {id}, AuthOk(id, name));
  }

  lemma IdIssued(s: State, id: Uuid)
    requires Inv(s) && id in s.clients
    ensures id in s.issued && id != NIL && s.clients[id].id == id
  {
  }

  function Entered(id: Uuid): Delta {
    Delta({id}, {}, {}, {id}, {}, false)
  }

  lemma EnterChannels(s: State, id: Uuid, cid: Uuid, lobby: bool)
    requires id in s.clients && cid in s.channels
    ensures var t := Enter(s, id, cid, lobby);
            && t.channels ==
               s.channels[cid := s.channels[cid].(members := s.channels[cid].members[id := Clone(s.clients[id])])]
            && t.clients[id] == s.clients[id].(channels := s.clients[id].channels + {cid})
  {
  }

  /** A lobby may be entered by a client that is in no channel of that name. */
  lemma EnterLobbyKeeps(s: State, id: Uuid, use: bool, lobby: Option<Uuid>)
    requires Inv(s) && id in s.clients
    requires lobby.Some? && lobby.value in s.channels ==> MayEnter(s, id, lobby.value)
    ensures var t := EnterLobby(s, id, use, lobby);
            && Inv(t) && Evolves(Came(id), s, t) && t.clients[id].kind == s.clients[id].kind
            && t.channels.Keys == s.channels.Keys
            && (forall c :: c in s.channels && Some(c) != lobby ==> t.channels[c] == s.channels[c])
  {
    hide Inv, Evolves, Enter, MayEnter;
    GoneStill(Came(id), s);
    if use && lobby.Some? && lobby.value in s.channels {
      EnterKeeps(s, id, lobby.value, true);
      EnterChannels(s, id, lobby.value, true);
    }
  }

  lemma GlobalIsOpen(s: State, id: Uuid, global: Option<Uuid>)
    requires id in s.clients && s.clients[id].kind != Unknown && ExactLookup(s, GLOBAL_LOBBY, global)
    requires forall c :: c in s.channels ==> id !in s.channels[c].members
    ensures global.Some? && global.value in s.channels ==> MayEnter(s, id, global.value)
  {
  }

  lemma SecondLobby(s: State, t: State, id: Uuid, global: Option<Uuid>, local: Option<Uuid>, name: string)
    requires id in s.clients && id in t.clients && t.clients[id].kind == s.clients[id].kind != Unknown
    requires t.channels.Keys == s.channels.Keys
    requires forall c :: c in s.channels && Some(c) != global ==> t.channels[c] == s.channels[c]
    requires forall c :: c in s.channels ==> id !in s.channels[c].members
    requires ExactLookup(s, GLOBAL_LOBBY, global) && ExactLookup(s, name, local) && name != GLOBAL_LOBBY
    requires OpenLobby(name) || s.clients[id].kind == Agent
    ensures local.Some? && local.value in t.channels ==> MayEnter(t, id, local.value)
  {
  }

  lemma EnteredPlus(id: Uuid)
    ensures Plus(Changed(id), Came(id)) == Entered(id) && Plus(Entered(id), Came(id)) == Entered(id)
    ensures Changed(id).ins + Came(id).ins !! Changed(id).outs + Came(id).outs
    ensures Entered(id).ins + Came(id).ins !! Entered(id).outs + Came(id).outs
  {
  }

  /** Two lobbies of different names, entered right after signing in. */
  lemma LobbiesKeep(s: State, s1: State, id: Uuid, g: bool, global: Option<Uuid>, l: bool, local: Option<Uuid>,
                    name: string)
    requires Inv(s) && id in s.clients
    requires Inv(s1) && Evolves(Changed(id), s, s1) && s1.channels == s.channels && id in s1.clients
             && s1.clients[id].kind != Unknown
    requires forall c :: c in s1.channels ==> id !in s1.channels[c].members
    requires ExactLookup(s, GLOBAL_LOBBY, global) && ExactLookup(s, name, local) && name != GLOBAL_LOBBY
    requires OpenLobby(name) || s1.clients[id].kind == Agent
    ensures var t := EnterLobby(EnterLobby(s1, id, g, global), id, l, local);
            Inv(t) && Evolves(Entered(id), s, t) && t.clients[id].status == s1.clients[id].status
  {
    hide *;
    var s2 := EnterLobby(s1, id, g, global);
    var t := EnterLobby(s2, id, l, local);
    LookupFrame(s, s1, GLOBAL_LOBBY, global);
    LookupFrame(s, s1, name, local);
    GlobalIsOpen(s1, id, global);
    EnterLobbyKeeps(s1, id, g, global);
    SecondLobby(s1, s2, id, global, local, name);
    EnterLobbyKeeps(s2, id, l, local);
    OpenInv(s);
    EnteredPlus(id);
    EvolveOn(Changed(id), Came(id), s, s1, s2);
    EvolveOn(Entered(id), Came(id), s, s2, t);
    StatusKept(Came(id), s1, s2, id);
    StatusKept(Came(id), s2, t, id);
    CameNobody(id);
  }

  lemma CameNobody(id: Uuid)
    ensures Came(id).who == {}
  {
  }

  lemma StatusKept(d: Delta, s: State, t: State, id: Uuid)
    requires Evolves(d, s, t) && id in s.clients && id in t.clients
    ensures id !in d.who ==> t.clients[id] == s.clients[id].(channels := t.clients[id].channels)
  {
  }

  lemma LookupFrame(s: State, t: State, name: string, found: Option<Uuid>)
    requires ExactLookup(s, name, found) && t.channels == s.channels
    ensures ExactLookup(t, name, found)
  {
  }

  lemma AuthGuestKeeps(s: State, id: Uuid, name: string, global: Option<Uuid>, local: Option<Uuid>)
    requires Inv(s) && id in s.clients && s.clients[id].kind == Unknown
    requires ExactLookup(s, GLOBAL_LOBBY, global) && ExactLookup(s, GUEST_LOBBY, local)
    ensures var t := AuthGuest(s, id, name, global, local);
            && Inv(t) && Evolves(Entered(id), s, t)
            && (id in t.clients ==> t.clients[id].status == s.clients[id].status || t.clients[id].status == Connected)
  {
    hide Inv, Evolves, EnterLobby, T.ClientName, SignIn, ExactLookup;
    RefusalKeeps(Entered(id), s, id, NotAvailable);
    RefusalKeeps(Entered(id), s, id, NameInUse);
    RefusalKeeps(Entered(id), s, id, NameInvalid);
    if s.conf.allowGuests && !NameTaken(s, name) && T.ClientName(name) {
      SignInKeeps(s, id, name, Guest, s.conf.guestOptions);
      var s1 := SignIn(s, id, name, Guest, s.conf.guestOptions);
      assert s1.conf == s.conf by { ConfKept(Changed(id), s, s1); }
      LobbiesKeep(s, s1, id, s.conf.useGlobal, global, s.conf.useGuest, local, GUEST_LOBBY);
    }
  }

  lemma ConfKept(d: Delta, s: State, t: State)
    requires Evolves(d, s, t)
    ensures t.conf == s.conf
  {
  }

  lemma AuthAgentKeeps(s: State, id: Uuid, name: string, permissions: Option<set<Power>>, global: Option<Uuid>,
                       local: Option<Uuid>)
    requires Inv(s) && id in s.clients && s.clients[id].kind == Unknown
    requires ExactLookup(s, GLOBAL_LOBBY, global) && ExactLookup(s, STAFF_LOBBY, local)
    ensures var t := AuthAgent(s, id, name, permissions, global, local);
            && Inv(t) && Evolves(Entered(id), s, t)
            && (id in t.clients ==> t.clients[id].status == s.clients[id].status || t.clients[id].status == Connected)
  {
    hide Inv, Evolves, EnterLobby, T.ClientName, SignIn, ExactLookup;
    RefusalKeeps(Entered(id), s, id, InvalidAuth);
    RefusalKeeps(Entered(id), s, id, NameInUse);
    RefusalKeeps(Entered(id), s, id, NameInvalid);
    if permissions.None? {
      var u := Tell(s, id, InvalidAuth);
      assert u == s.(outbox := u.outbox) by {
        CastParts(s, {id}, Trouble(InvalidAuth));
        TellIsCast(s, id, InvalidAuth);
      }
      UnknownIsNowhere(s, id);
      DropKeeps(u, id);
      StillOn(Entered(id), s, u, DropClient(u, id));
    } else if !NameTaken(s, name) && T.ClientName(name) {
      SignInKeeps(s, id, name, Agent, permissions.value);
      var s1 := SignIn(s, id, name, Agent, permissions.value);
      assert s1.conf == s.conf by { ConfKept(Changed(id), s, s1); }
      LobbiesKeep(s, s1, id, s.conf.useGlobal, global, s.conf.useStaff, local, STAFF_LOBBY);
    }
  }

  lemma TellIsCast(s: State, id: Uuid, code: Problem)
    ensures Tell(s, id, code) == Cast(s, {id}, Trouble(code))
  {
  }

  lemma UnknownIsNowhere(s: State, id: Uuid)
    requires Inv(s) && id in s.clients && s.clients[id].kind == Unknown
    ensures forall c :: c in s.channels ==> id !in s.channels[c].members
  {
    forall c | c in s.channels ensures id !in s.channels[c].members {
      assert Listed(s.clients, c, s.channels[c]);
    }
  }

  // Connections and health checks

  function Arrived(id: Uuid): Delta {
    Delta({}, {}, {}, {id}, {}, false)
  }

  lemma NewcomerIndex(clients: Clients, channels: Channels, id: Uuid, c: ClientRec)
    requires Index(clients, channels) && id !in clients
    ensures Index(clients[id := c], channels)
  {
    forall x | x in channels ensures Listed(clients[id := c], x, channels[x]) {
      assert Listed(clients, x, channels[x]);
    }
  }

  lemma NewcomerClients(clients: Clients, issued: set<Uuid>, id: Uuid, c: ClientRec)
    requires ClientIds(clients, issued) && Standing(clients) && Names(clients)
    requires c.id == id && id != NIL && id !in issued && StandingOf(c) && c.kind == Unknown
    ensures var after := clients[id := c];
            && ClientIds(after, issued + {id}) && Standing(after) && Names(after)
            && ClientsEvolve(Arrived(id), clients, issued, after)
  {
    hide T.ClientName, StandingOf;
  }

  lemma AcceptKeeps(s: State, id: Uuid, ip: Ip, name: string, now: Time)
    requires Inv(s) && UnusedId(s, id)
    ensures var t := Accept(s, id, ip, name, now); Inv(t) && Evolves(Arrived(id), s, t)
  {
    hide Inv, Mail, Topics, TextsKept, AddressesKept, PingsKept, Names, Standing, ClientIds, Index, ClientsEvolve,
      ChannelsEvolve;
    GoneStill(Arrived(id), s);
    if !Banned(s.bans, ip) {
      OpenInv(s);
      AllIssued(s);
      var t := Accept(s, id, ip, name, now);
      NewcomerClients(s.clients, s.issued, id, t.clients[id]);
      NewcomerIndex(s.clients, s.channels, id, t.clients[id]);
      MailFrame(s.clients, s.outbox, s.issued, t.clients, t.issued);
      SameChannels(Arrived(id), s.channels, s.issued);
      SameTexts(s.outbox);
      CloseInv(t);
    }
  }

  function Inspected(ids: set<Uuid>): Delta {
    Delta({}, {}, {}, ids, {}, false)
  }

  lemma CheckedOne(c: ClientRec, now: Time)
    requires StandingOf(c) && c.lastAction <= now
    ensures var r := Checked(c, now); StandingOf(r) && Clone(r) == Clone(c) && r.channels == c.channels
    ensures !Expired(c, now) && !NeedsPing(c, now) ==> Checked(c, now) == c
  {
  }

  function CheckAll(clients: Clients, now: Time): Clients {
    map k | k in clients :: Checked(clients[k], now)
  }

  lemma CheckedStanding(clients: Clients, issued: set<Uuid>, now: Time)
    requires ClientIds(clients, issued) && Standing(clients)
    requires forall k :: k in clients ==> clients[k].lastAction <= now
    ensures var after := CheckAll(clients, now);
            && ClientIds(after, issued) && Standing(after)
            && (forall k :: k in clients ==>
                  Clone(after[k]) == Clone(clients[k]) && after[k].channels == clients[k].channels)
            && (forall k :: k in clients && !Expired(clients[k], now) && !NeedsPing(clients[k], now) ==>
                  after[k] == clients[k])
  {
    hide Checked, StandingOf, Expired, NeedsPing;
    forall k | k in clients
      ensures var r := Checked(clients[k], now);
              StandingOf(r) && Clone(r) == Clone(clients[k]) && r.channels == clients[k].channels
      ensures !Expired(clients[k], now) && !NeedsPing(clients[k], now) ==> Checked(clients[k], now) == clients[k]
    {
      CheckedOne(clients[k], now);
    }
  }

  lemma CheckedKeeps(clients: Clients, issued: set<Uuid>, now: Time, ids: set<Uuid>)
    requires ClientIds(clients, issued) && Standing(clients) && Names(clients)
    requires forall k :: k in clients ==> clients[k].lastAction <= now
    requires ids == set k | k in clients && (Expired(clients[k], now) || NeedsPing(clients[k], now))
    ensures var after := CheckAll(clients, now);
            ClientIds(after, issued) && Standing(after) && Names(after)
              && ClientsEvolve(Inspected(ids), clients, issued, after)
  {
    hide T.ClientName, Checked, Expired, NeedsPing, Standing, StandingOf, ClientIds;
    CheckedStanding(clients, issued, now);
    var after := CheckAll(clients, now);
    forall k | k in clients ensures after[k].name == clients[k].name && after[k].kind == clients[k].kind
      && after[k].id == clients[k].id && after[k].ip == clients[k].ip
    {
      assert Clone(after[k]) == Clone(clients[k]);
    }
  }

  lemma CheckedIndex(clients: Clients, channels: Channels, now: Time)
    requires Index(clients, channels)
    ensures Index(CheckAll(clients, now), channels)
  {
    var after := CheckAll(clients, now);
    assert forall k :: k in clients ==>
        k in after && Clone(after[k]) == Clone(clients[k]) && after[k].kind == clients[k].kind
        && after[k].channels == clients[k].channels;
    hide CheckAll, Checked, Clone;
    forall x | x in channels ensures Listed(after, x, channels[x]) {
      assert Listed(clients, x, channels[x]);
    }
  }

  lemma InspectKeeps(s: State, now: Time)
    requires Inv(s) && ClockOk(s, now)
    ensures var t := Inspect(s, now);
            && Inv(t) && Evolves(Inspected(ExpiredIn(s, now) + PingedIn(s, now)), s, t) && t.channels == s.channels
            && t.clients == CheckAll(s.clients, now)
            && t.bans == s.bans && t.issued == s.issued
  {
    hide Inv, Mail, Names, Standing, TextsKept, AddressesKept, PingsKept, ClientsEvolve, ChannelsEvolve, ClientIds,
      ChannelIds, Topics, Index, Expired, NeedsPing;
    OpenInv(s);
    var after := CheckAll(s.clients, now);
    var ids, pinged, expired := ExpiredIn(s, now) + PingedIn(s, now), PingedIn(s, now), ExpiredIn(s, now);
    var s1 := s.(clients := after);
    CheckedKeeps(s.clients, s.issued, now, ids);
    CheckedIndex(s.clients, s.channels, now);
    assert forall k :: k in after && k in s.clients ==> after[k].kind == s.clients[k].kind;
    MailFrame(s.clients, s.outbox, s.issued, after, s.issued);
    SameChannels(Inspected(ids), s.channels, s.issued);
    SameTexts(s.outbox);
    CloseInv(s1);
    AllIssued(s);
    var s2 := Cast(s1, pinged, Ping(now));
    assert Inspect(s, now) == Cast(s2, expired, PingTimeout) && s2.issued == s1.issued;
    assert Plain(s1.issued, PingTimeout) && pinged <= Inspected(ids).who && Inspected(ids).ins !! Inspected(ids).outs;
    assert pinged <= s.clients.Keys && expired <= s.clients.Keys;
    assert Evolves(Inspected(ids), s, s1);
    hide Evolves, Plain, PingedIn, ExpiredIn, Checked;
    PingOn(Inspected(ids), s, s1, pinged, now);
    PlainOn(Inspected(ids), s, s2, expired, PingTimeout);
  }

  lemma AllIssued(s: State)
    requires Inv(s)
    ensures s.clients.Keys <= s.issued
  {
  }

  lemma {:induction false} PurgeAllKeeps(s: State, plan: seq<Victim>)
    requires Inv(s) && PlanFits(s, plan)
    ensures var t := PurgeAll(s, plan);
            && Inv(t) && Evolves(Left(Others(plan)), s, t) && t.clients == s.clients - Others(plan)
            && t.bans == s.bans && t.issued == s.issued
  {
    hide Inv, Evolves, Enumerates, Purge, Depart;
    if plan == [] {
      GoneStill(Left({}), s);
      assert Others(plan) == {};
    } else {
      var n := |plan| - 1;
      var v, u := plan[n], PurgeAll(s, plan[..n]);
      OthersSnoc(plan);
      PurgeAllKeeps(s, plan[..n]);
      PlanRest(s, u, plan);
      PurgeMeaning(u, v.id, v.order);
      DepartParts(u, v.id);
      var t := Purge(u, v.id, v.order);
      assert Plus(Left(Others(plan[..n])), Gone(v.id)) == Left(Others(plan));
      assert ClientIds(s.clients, s.issued) && ChannelIds(s.channels, s.issued) by { OpenInv(s); }
      assert s.clients - Others(plan) == (s.clients - Others(plan[..n])) - {v.id};
      hide PurgeAll, PlanFits, Others;
      EvolveOn(Left(Others(plan[..n])), Gone(v.id), s, u, t);
    }
  }
}
