/** One meaning for the three teardown loops: kill, connection error and ping purge. */
module Departure {
  import opened Basics
  import opened Uuids
  import opened Messages
  import opened Machine
  import opened Invariants
  import opened SmallSteps
  import M = Modes

  /** The channel would be left empty, and nothing keeps it alive. */
  predicate Dies(ch: ChannelRec, id: Uuid) {
    ch.members.Keys <= {id} && M.Persist !in ch.options
  }

  /** The channels after a client left those in `done`. */
  function Torn(channels: Channels, id: Uuid, done: set<Uuid>): Channels {
    map c | c in channels && !(c in done && Dies(channels[c], id)) ::
      if c in done then Without(channels[c], id) else channels[c]
  }

  /** Independent description of a departure: the client leaves every channel at once; the channels of its own list
      that are left empty disappear unless they persist; the client is unregistered; nothing else changes. */
  function Depart(s: State, id: Uuid): State
    requires id in s.clients
  {
    var mine := s.clients[id].channels;
    s.(clients := s.clients - {id},
       channels := map c | c in s.channels && !(c in mine && Dies(s.channels[c], id)) :: Without(s.channels[c], id))
  }

  lemma WithoutTwice(ch: ChannelRec, id: Uuid)
    ensures Without(Without(ch, id), id) == Without(ch, id)
    ensures Without(ch, id).members == map[] <==> ch.members.Keys <= {id}
    ensures id !in ch.members ==> Without(ch, id) == ch
  {
    var rest := Without(ch, id).members;
    assert rest.Keys == ch.members.Keys - {id};
    assert rest == map[] <==> rest.Keys == {};
  }

  /** Who is told that the client left. */
  function Told(ch: ChannelRec, id: Uuid, discreet: bool): set<Uuid> {
    (if discreet && Veiled(ch.options) then AgentsOf(ch) else ch.members.Keys) - {id}
  }

  lemma TearParts(s: State, id: Uuid, cid: Uuid, name: string, reason: string, discreet: bool)
    requires cid in s.channels
    ensures var t, ch := Tear(s, id, cid, name, reason, discreet), s.channels[cid];
            && t == s.(outbox := t.outbox, channels := t.channels)
            && t.outbox == Cast(s, Told(ch, id, discreet), Quit(cid, id, name, reason)).outbox
            && t.channels == if Dies(ch, id) then s.channels - {cid} else s.channels[cid := Without(ch, id)]
  {
    var ch := s.channels[cid];
    WithoutTwice(ch, id);
    assert s.channels[cid := Without(ch, id)] - {cid} == s.channels - {cid};
  }

  /** One turn of the loop, whatever happened before and even if the channel was visited already. */
  lemma TearTorn(s: State, channels: Channels, id: Uuid, done: set<Uuid>, cid: Uuid, name: string, reason: string,
                 discreet: bool)
    requires s.channels == Torn(channels, id, done)
    ensures var t := Tear(s, id, cid, name, reason, discreet);
            t == s.(channels := Torn(channels, id, done + {cid}), outbox := t.outbox)
  {
    var after := Torn(channels, id, done + {cid});
    var t := Tear(s, id, cid, name, reason, discreet);
    if cid in s.channels {
      var ch := channels[cid];
      WithoutTwice(ch, id);
      assert t.channels == if Dies(ch, id) then s.channels - {cid} else s.channels[cid := Without(ch, id)];
    }
    assert t.channels == after;
  }

  function Elements(order: seq<Uuid>): set<Uuid> {
    set c | c in order
  }

  lemma ElementsSnoc(order: seq<Uuid>)
    requires order != []
    ensures Elements(order) == Elements(order[..|order| - 1]) + {order[|order| - 1]}
  {
    assert order == order[..|order| - 1] + [order[|order| - 1]];
  }

  /** The loops visit any order; the registries only depend on which channels were visited. */
  lemma {:induction false} TearAllTorn(s: State, id: Uuid, order: seq<Uuid>, name: string, reason: string,
                                       discreet: bool)
    ensures var t := TearAll(s, id, order, name, reason, discreet);
            t == s.(channels := Torn(s.channels, id, Elements(order)), outbox := t.outbox)
  {
    if order == [] {
      assert Torn(s.channels, id, {}) == s.channels;
      assert Elements(order) == {} && TearAll(s, id, order, name, reason, discreet) == s;
      hide *;
    } else {
      var n := |order| - 1;
      var u := TearAll(s, id, order[..n], name, reason, discreet);
      var done := Elements(order[..n]);
      ElementsSnoc(order);
      assert TearAll(s, id, order, name, reason, discreet) == Tear(u, id, order[n], name, reason, discreet);
      hide *;
      TearAllTorn(s, id, order[..n], name, reason, discreet);
      TearTorn(u, s.channels, id, done, order[n], name, reason, discreet);
    }
  }

  lemma {:induction false} TearAllKeeps(s: State, id: Uuid, order: seq<Uuid>, name: string, reason: string,
                                        discreet: bool)
    requires Inv(s)
    ensures var t := TearAll(s, id, order, name, reason, discreet); Inv(t) && Evolves(Gone(id), s, t)
  {
    if order == [] {
      hide Inv;
      SameClients(Gone(id), s.clients, s.issued);
      SameChannels(Gone(id), s.channels, s.issued);
      SameTexts(s.outbox);
    } else {
      var n := |order| - 1;
      var u := TearAll(s, id, order[..n], name, reason, discreet);
      assert ClientIds(s.clients, s.issued) && ChannelIds(s.channels, s.issued);
      assert Plus(Gone(id), Gone(id)) == Gone(id) && Gone(id).ins == {};
      hide Inv, Evolves, Tear;
      TearAllKeeps(s, id, order[..n], name, reason, discreet);
      TearKeeps(u, id, order[n], name, reason, discreet);
      EvolveOn(Gone(id), Gone(id), s, u, TearAll(s, id, order, name, reason, discreet));
    }
  }

  lemma OrderSet(order: seq<Uuid>, all: set<Uuid>)
    requires Enumerates(order, all)
    ensures Elements(order) == all
  {
  }

  lemma TornAt(channels: Channels, id: Uuid, done: set<Uuid>, c: Uuid)
    requires c in channels
    requires id in channels[c].members ==> c in done
    ensures c in Torn(channels, id, done) <==> !(c in done && Dies(channels[c], id))
    ensures c in Torn(channels, id, done) ==> Torn(channels, id, done)[c] == Without(channels[c], id)
  {
    hide Dies;
    WithoutTwice(channels[c], id);
  }

  /** After a complete loop the client is a member nowhere, and unregistering it gives `Depart`. */
  lemma TornIsDepart(s: State, id: Uuid, order: seq<Uuid>)
    requires Inv(s) && id in s.clients && Enumerates(order, s.clients[id].channels)
    ensures var after := Torn(s.channels, id, Elements(order));
            after == Depart(s, id).channels && forall c :: c in after ==> id !in after[c].members
  {
    hide Inv, Dies, Enumerates;
    var mine := s.clients[id].channels;
    OrderSet(order, mine);
    MemberIsListed(s, id);
    forall c | c in s.channels
      ensures c in Torn(s.channels, id, mine) <==> !(c in mine && Dies(s.channels[c], id))
      ensures c in Torn(s.channels, id, mine) ==> Torn(s.channels, id, mine)[c] == Without(s.channels[c], id)
    {
      TornAt(s.channels, id, mine, c);
    }
  }

  lemma MemberIsListed(s: State, id: Uuid)
    requires Inv(s) && id in s.clients
    ensures forall c :: c in s.channels && id in s.channels[c].members ==> c in s.clients[id].channels
  {
    hide Inv, Mail, Names, Standing, Topics, ChannelIds, ClientIds;
    OpenInv(s);
    forall c | c in s.channels && id in s.channels[c].members ensures c in s.clients[id].channels {
      assert Listed(s.clients, c, s.channels[c]);
    }
  }

  /** A complete teardown: the registries are those of `Depart`, for every iteration order, stale entries or
      not. */
  lemma TeardownMeaning(s: State, id: Uuid, order: seq<Uuid>, reason: string, discreet: bool)
    requires Inv(s) && id in s.clients && Enumerates(order, s.clients[id].channels)
    ensures var t := DropClient(TearAll(s, id, order, s.clients[id].name, reason, discreet), id);
            t == Depart(s, id).(outbox := t.outbox) && Inv(t) && Evolves(Gone(id), s, t)
  {
    var u := TearAll(s, id, order, s.clients[id].name, reason, discreet);
    hide Inv, Evolves;
    TearAllTorn(s, id, order, s.clients[id].name, reason, discreet);
    TearAllKeeps(s, id, order, s.clients[id].name, reason, discreet);
    TornIsDepart(s, id, order);
    DropKeeps(u, id);
    StillOn(Gone(id), s, u, DropClient(u, id));
  }

  lemma DisconnectMeaning(s: State, id: Uuid, reason: string, order: seq<Uuid>)
    requires Inv(s) && id in s.clients && Enumerates(order, s.clients[id].channels)
    ensures var t := Disconnect(s, id, reason, order);
            t == Depart(s, id).(outbox := t.outbox) && Inv(t) && Evolves(Gone(id), s, t)
  {
    hide Inv, Evolves;
    TeardownMeaning(s, id, order, reason, true);
  }

  lemma PurgeMeaning(s: State, id: Uuid, order: seq<Uuid>)
    requires Inv(s) && id in s.clients && Enumerates(order, s.clients[id].channels)
    ensures var t := Purge(s, id, order); t == Depart(s, id).(outbox := t.outbox) && Inv(t) && Evolves(Gone(id), s, t)
  {
    hide Inv, Evolves;
    TeardownMeaning(s, id, order, "ping timeout: 180 seconds", false);
  }

  lemma WallopFine(s: State, m: Msg)
    requires !IsRosterMsg(m) && Inv(s)
    ensures WallopTo(s) <= s.issued
    ensures forall id :: id in WallopTo(s) ==> May(s.clients, s.issued, id, m)
  {
  }

  lemma KillRefused(s: State, actor: Uuid, target: Uuid, reason: string, order: seq<Uuid>)
    requires Inv(s) && actor in s.clients && !MayKill(s, actor, target, reason)
    ensures var t := Kill(s, actor, target, reason, order);
            Inv(t) && Evolves(STILL, s, t) && t == s.(outbox := t.outbox)
  {
    var code := if s.clients[actor].kind != Agent then PermissionDenied
      else if target !in s.clients then NameInvalid
      else if Admin in s.clients[target].options then PermissionDenied else InvalidArgument;
    assert Kill(s, actor, target, reason, order) == Cast(s, {actor}, Trouble(code));
    assert actor in s.issued by { OpenInv(s); }
    hide Inv, Evolves;
    Unmoved(s);
    PlainOn(STILL, s, s, {actor}, Trouble(code));
  }

  lemma KillPermitted(s: State, actor: Uuid, target: Uuid, reason: string, order: seq<Uuid>)
    requires Inv(s) && actor in s.clients && MayKill(s, actor, target, reason)
    requires Enumerates(order, s.clients[target].channels)
    ensures var t := Kill(s, actor, target, reason, order);
            Inv(t) && Evolves(Gone(target), s, t) && t == Depart(s, target).(outbox := t.outbox)
  {
    var d := Gone(target);
    var victim, why := s.clients[target], KillReason(reason);
    var said := "Killed (" + why + ")";
    var s1 := TearAll(s, target, order, victim.name, said, false);
    var s2 := Cast(s1, {target}, Trouble(KickedFromServer));
    var s3 := DropClient(s2, target);
    var m := KillNotice(s.clients[actor].name, victim.name, victim.ip, why);
    assert Kill(s, actor, target, reason, order) == Cast(s3, WallopTo(s3), m);
    assert target in s.issued by { OpenInv(s); }
    assert d.ins !! d.outs;
    TearAllTorn(s, target, order, victim.name, said, false);
    hide *;
    TearAllKeeps(s, target, order, victim.name, said, false);
    assert s1.issued == s.issued;
    TornIsDepart(s, target, order);
    PlainTrouble(s1.issued, KickedFromServer);
    PlainOn(d, s, s1, {target}, Trouble(KickedFromServer));
    assert s2.channels == s1.channels && s1.channels == Depart(s, target).channels by {
      CastParts(s1, {target}, Trouble(KickedFromServer));
    }
    DropKeeps(s2, target);
    StillOn(d, s, s2, s3);
    NoticePlain(m);
    WallopFine(s3, m);
    CastOn(d, s, s3, WallopTo(s3), m);
    CastParts(s1, {target}, Trouble(KickedFromServer));
    CastParts(s3, WallopTo(s3), m);
    DropParts(s2, target);
    DepartParts(s, target);
  }

  lemma CastParts(s: State, to: set<Uuid>, m: Msg)
    ensures Cast(s, to, m) == s.(outbox := Cast(s, to, m).outbox)
  {
  }

  lemma DropParts(s: State, id: Uuid)
    ensures DropClient(s, id) == s.(clients := s.clients - {id})
  {
  }

  lemma PlainTrouble(issued: set<Uuid>, code: Problem)
    ensures Plain(issued, Trouble(code))
  {
  }

  lemma NoticePlain(m: Msg)
    requires m.KillNotice? || m.BanNotice?
    ensures !IsRosterMsg(m) && !IsUserText(m) && !m.Ping?
  {
  }

  function KillDelta(s: State, actor: Uuid, target: Uuid, reason: string): Delta
    requires actor in s.clients
  {
    if MayKill(s, actor, target, reason) then Gone(target) else STILL
  }

  lemma KillMeaning(s: State, actor: Uuid, target: Uuid, reason: string, order: seq<Uuid>)
    requires Inv(s) && actor in s.clients
    requires target in s.clients ==> Enumerates(order, s.clients[target].channels)
    ensures var t := Kill(s, actor, target, reason, order);
            Inv(t) && Evolves(KillDelta(s, actor, target, reason), s, t)
            && t == (if MayKill(s, actor, target, reason) then Depart(s, target) else s).(outbox := t.outbox)
  {
    if MayKill(s, actor, target, reason) {
      hide Inv, Evolves, Kill;
      KillPermitted(s, actor, target, reason, order);
    } else {
      hide Inv, Evolves, Kill;
      KillRefused(s, actor, target, reason, order);
    }
  }

  lemma DepartParts(s: State, id: Uuid)
    requires id in s.clients
    ensures Depart(s, id) == s.(clients := s.clients - {id}, channels := Depart(s, id).channels)
  {
  }

  lemma GoneStill(d: Delta, s: State)
    ensures Evolves(d, s, s)
  {
    SameClients(d, s.clients, s.issued);
    SameChannels(d, s.channels, s.issued);
    SameTexts(s.outbox);
  }

  lemma TornTwice(channels: Channels, id: Uuid, done: set<Uuid>, again: set<Uuid>)
    requires again <= done
    ensures Torn(Torn(channels, id, done), id, again) == Torn(channels, id, done)
  {
    var once := Torn(channels, id, done);
    forall c | c in again && c in once
      ensures once[c] == Without(channels[c], id) && !Dies(once[c], id) && Without(once[c], id) == once[c]
    {
      WithoutTwice(channels[c], id);
      assert once[c].members.Keys + {id} == channels[c].members.Keys + {id};
    }
  }

  /** Tearing down again, over any part of the list and in any order, changes neither registry. */
  lemma TeardownTwice(s: State, id: Uuid, order: seq<Uuid>, again: seq<Uuid>, name: string, reason: string,
                      discreet: bool, name2: string, reason2: string, discreet2: bool)
    requires forall c :: c in again ==> c in order
    ensures var t := TearAll(s, id, order, name, reason, discreet);
            var u := TearAll(t, id, again, name2, reason2, discreet2);
            u == t.(outbox := u.outbox)
  {
    hide Torn, TearAll;
    TearAllTorn(s, id, order, name, reason, discreet);
    TearAllTorn(TearAll(s, id, order, name, reason, discreet), id, again, name2, reason2, discreet2);
    TornTwice(s.channels, id, Elements(order), Elements(again));
  }

  /** What a departure is, membership by membership: the client is gone from everywhere, everybody else stays where
      they were, and exactly the channels of its list that were left empty without Persist are unregistered. */
  lemma DepartMeaning(s: State, id: Uuid, c: Uuid)
    requires Inv(s) && id in s.clients && c in s.channels
    ensures var t := Depart(s, id);
            && (c !in t.channels <==>
                  c in s.clients[id].channels && M.Persist !in s.channels[c].options
                  && forall m :: m in s.channels[c].members ==> m == id)
            && (c in t.channels ==>
                  && id !in t.channels[c].members
                  && t.channels[c] == s.channels[c].(members := t.channels[c].members)
                  && (forall m :: m in s.channels[c].members && m != id
                        ==> m in t.channels[c].members && t.channels[c].members[m] == s.channels[c].members[m])
                  && (forall m :: m in t.channels[c].members ==> m in s.channels[c].members))
  {
    hide Inv;
  }
}
