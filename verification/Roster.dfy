/** The browser's roster as a replica of the server's member tables. */
module Roster {
  import opened Basics
  import opened Uuids
  import opened Messages
  import opened Machine
  import opened Invariants
  import opened SmallSteps
  import opened Departure
  import opened Handlers
  import opened Steps
  import opened Runs
  import opened Collection
  import M = Modes
  import T = Text

  /** What one browser shows of one channel: the entries of its user list, each with how often it is shown, or None if
      it has no such room. */
  type View = Option<multiset<Uuid>>

  /** The browser's handlers for the five roster messages. A join appends an entry even if there is one already, and
      only one entry is taken out at a time; taking out an entry that is not shown changes nothing. */
  function React(me: Uuid, c: Uuid, view: View, m: Msg): View {
    if !IsRosterMsg(m) || m.channel != c then view
    else
      match m
      case Join(_, who, _, _) => if who == me then Opened(view, me) else Added(view, who)
      case UserList(_, users) => Filled(view, users.Keys - {me})
      case Part(_, who, _) => if who == me then None else Removed(view, who)
      case Kick(_, who, _) => if who == me then None else Removed(view, who)
      case Quit(_, who, _, _) => Removed(view, who)
      case _ => view
  }

  /** A new room shows its own user; entries of an old room with the same id would stay on the page. */
  function Opened(view: View, me: Uuid): View {
    Some(view.UnwrapOr(multiset{}) + multiset{me})
  }

  function Added(view: View, who: Uuid): View {
    if view.Some? then Some(view.value + multiset{who}) else None
  }

  function Missing(shown: multiset<Uuid>, users: set<Uuid>): set<Uuid> {
    set u | u in users && u !in shown
  }

  /** A user list adds those that are not shown yet. */
  function Filled(view: View, users: set<Uuid>): View {
    if view.Some? then Some(view.value + multiset(Missing(view.value, users))) else None
  }

  function Removed(view: View, who: Uuid): View {
    if view.Some? then Some(view.value - multiset{who}) else None
  }

  /** Everybody is shown exactly once. */
  function Once(users: set<Uuid>): View {
    Some(multiset(users))
  }

  lemma OnceAdded(users: set<Uuid>, who: Uuid)
    requires who !in users
    ensures Added(Once(users), who) == Once(users + {who})
  {
    assert multiset(users) + multiset{who} == multiset(users + {who});
  }

  lemma OnceRemoved(users: set<Uuid>, who: Uuid)
    ensures Removed(Once(users), who) == Once(users - {who})
  {
    assert multiset(users) - multiset{who} == multiset(users - {who});
  }

  lemma OnceFilled(users: set<Uuid>, me: Uuid)
    requires me in users
    ensures Filled(Opened(None, me), users - {me}) == Once(users)
  {
    var shown := Opened(None, me).value;
    assert shown == multiset{me};
    assert Missing(shown, users - {me}) == users - {me};
    assert multiset{me} + multiset(users - {me}) == multiset(users);
  }

  lemma OnceAlone(me: Uuid)
    ensures Opened(None, me) == Once({me})
  {
    var none: multiset<Uuid> := multiset{};
    assert none + multiset{me} == multiset({me});
  }

  /** The view after all messages received so far. */
  function Fold(me: Uuid, c: Uuid, msgs: seq<Msg>): View {
    if msgs == [] then None
    else React(me, c, Fold(me, c, msgs[..|msgs| - 1]), msgs[|msgs| - 1])
  }

  function ViewOf(s: State, r: Uuid, c: Uuid): View {
    Fold(r, c, Box(s.outbox, r))
  }

  /** What the server's tables say the browser should show: members see exactly the members, others have no room. */
  function Expected(channels: Channels, r: Uuid, c: Uuid): View {
    if c in channels && r in channels[c].members then Once(channels[c].members.Keys) else None
  }

  ghost predicate Synced(s: State, c: Uuid, except: set<Uuid>) {
    forall r :: r in s.clients && r !in except ==> ViewOf(s, r, c) == Expected(s.channels, r, c)
  }

  /** The channel shows its members to everybody, and none of them is an invisible client. */
  ghost predicate Open(channels: Channels, c: Uuid) {
    c in channels ==>
      && !Veiled(channels[c].options)
      && forall m :: m in channels[c].members ==> Unseen !in channels[c].members[m].options
  }

  lemma ViewCast(s: State, to: set<Uuid>, m: Msg, r: Uuid, c: Uuid)
    ensures ViewOf(Cast(s, to, m), r, c) == if r in to then React(r, c, ViewOf(s, r, c), m) else ViewOf(s, r, c)
  {
    var was := Box(s.outbox, r);
    assert (was + [m])[..|was|] == was;
  }

  /** A message that is not about the channel's roster leaves the views alone. */
  predicate Silent(m: Msg, c: Uuid) {
    !IsRosterMsg(m) || m.channel != c
  }

  lemma SilentCast(s: State, to: set<Uuid>, m: Msg, c: Uuid)
    requires Silent(m, c)
    ensures forall r :: ViewOf(Cast(s, to, m), r, c) == ViewOf(s, r, c)
    ensures forall r, cond :: ViewOf(CastIf(s, cond, to, m), r, c) == ViewOf(s, r, c)
  {
    hide ViewOf, Deliver;
    forall r ensures ViewOf(Cast(s, to, m), r, c) == ViewOf(s, r, c) {
      ViewCast(s, to, m, r, c);
    }
  }

  // Leaving

  lemma WithoutKeys(ch: ChannelRec, id: Uuid)
    ensures Without(ch, id).members.Keys == ch.members.Keys - {id}
    ensures forall m :: m in Without(ch, id).members ==> Without(ch, id).members[m] == ch.members[m]
    ensures Without(ch, id).options == ch.options
  {
  }

  lemma TearAt(s: State, id: Uuid, cid: Uuid, name: string, reason: string, discreet: bool, r: Uuid, c: Uuid)
    requires Open(s.channels, c) && r != id && ViewOf(s, r, c) == Expected(s.channels, r, c)
    ensures var t := Tear(s, id, cid, name, reason, discreet); ViewOf(t, r, c) == Expected(t.channels, r, c)
  {
    var t := Tear(s, id, cid, name, reason, discreet);
    if cid in s.channels {
      var ch, m := s.channels[cid], Quit(cid, id, name, reason);
      var to := Told(ch, id, discreet);
      TearParts(s, id, cid, name, reason, discreet);
      WithoutTwice(ch, id);
      assert c == cid ==> (r in to <==> r in ch.members);
      assert forall v: View :: React(r, c, v, m) == if c == cid then Removed(v, id) else v;
      hide Tear, ViewOf, Without, Expected, Removed, Told, Cast, React;
      ViewCast(s, to, m, r, c);
      SameBoxView(t, Cast(s, to, m), r, c);
      ExpectedWithout(s.channels, t.channels, cid, id, r, c);
    } else {
      TearNothing(s, id, cid, name, reason, discreet);
    }
  }

  lemma TearOpen(s: State, id: Uuid, cid: Uuid, name: string, reason: string, discreet: bool, c: Uuid)
    requires Open(s.channels, c)
    ensures var t := Tear(s, id, cid, name, reason, discreet); Open(t.channels, c) && t.clients == s.clients
  {
    if cid in s.channels {
      TearParts(s, id, cid, name, reason, discreet);
      WithoutKeys(s.channels[cid], id);
      hide Tear, Without;
    }
  }

  /** A departing client's teardown keeps everybody else synchronised. */
  lemma TearSynced(s: State, id: Uuid, cid: Uuid, name: string, reason: string, discreet: bool, c: Uuid)
    requires Open(s.channels, c) && Synced(s, c, {id})
    ensures var t := Tear(s, id, cid, name, reason, discreet); Open(t.channels, c) && Synced(t, c, {id})
  {
    hide Tear, ViewOf, Open, Expected;
    var t := Tear(s, id, cid, name, reason, discreet);
    TearOpen(s, id, cid, name, reason, discreet, c);
    forall r | r in t.clients && r != id ensures ViewOf(t, r, c) == Expected(t.channels, r, c) {
      TearAt(s, id, cid, name, reason, discreet, r, c);
    }
  }

  lemma TearNothing(s: State, id: Uuid, cid: Uuid, name: string, reason: string, discreet: bool)
    requires cid !in s.channels
    ensures Tear(s, id, cid, name, reason, discreet) == s
  {
  }

  lemma SameBoxView(s: State, t: State, r: Uuid, c: Uuid)
    requires s.outbox == t.outbox
    ensures ViewOf(s, r, c) == ViewOf(t, r, c)
  {
  }

  lemma {:induction false} TearAllSynced(s: State, id: Uuid, order: seq<Uuid>, name: string, reason: string,
                                         discreet: bool, c: Uuid)
    requires Open(s.channels, c) && Synced(s, c, {id})
    ensures var t := TearAll(s, id, order, name, reason, discreet); Open(t.channels, c) && Synced(t, c, {id})
  {
    hide Open, Synced, Tear;
    if order != [] {
      TearAllSynced(s, id, order[..|order| - 1], name, reason, discreet, c);
      TearSynced(TearAll(s, id, order[..|order| - 1], name, reason, discreet), id, order[|order| - 1], name, reason,
                 discreet, c);
    }
  }

  lemma SyncedLess(s: State, c: Uuid, id: Uuid)
    requires Synced(s, c, {})
    ensures Synced(s, c, {id})
  {
  }

  lemma DropSynced(s: State, id: Uuid, c: Uuid)
    requires Synced(s, c, {id})
    ensures Synced(DropClient(s, id), c, {})
  {
    forall r | r in DropClient(s, id).clients ensures ViewOf(DropClient(s, id), r, c) == ViewOf(s, r, c) {
    }
    hide ViewOf;
  }

  /** Disconnects and purges. */
  lemma TeardownSynced(s: State, id: Uuid, order: seq<Uuid>, name: string, reason: string, discreet: bool, c: Uuid)
    requires Open(s.channels, c) && Synced(s, c, {})
    ensures var t := DropClient(TearAll(s, id, order, name, reason, discreet), id);
            Open(t.channels, c) && Synced(t, c, {})
  {
    hide Synced, Open;
    SyncedLess(s, c, id);
    TearAllSynced(s, id, order, name, reason, discreet, c);
    DropSynced(TearAll(s, id, order, name, reason, discreet), id, c);
  }

  lemma SilentSynced(s: State, to: set<Uuid>, m: Msg, c: Uuid, except: set<Uuid>)
    requires Silent(m, c) && Synced(s, c, except)
    ensures Synced(Cast(s, to, m), c, except)
  {
    hide ViewOf, Deliver;
    SilentCast(s, to, m, c);
  }

  lemma KillSynced(s: State, actor: Uuid, target: Uuid, reason: string, order: seq<Uuid>, c: Uuid)
    requires Open(s.channels, c) && Synced(s, c, {}) && actor in s.clients
    ensures var t := Kill(s, actor, target, reason, order); Open(t.channels, c) && Synced(t, c, {})
  {
    if MayKill(s, actor, target, reason) {
      var victim, why := s.clients[target], KillReason(reason);
      var said := "Killed (" + why + ")";
      var s1 := TearAll(s, target, order, victim.name, said, false);
      var s2 := Cast(s1, {target}, Trouble(KickedFromServer));
      var s3 := DropClient(s2, target);
      var m := KillNotice(s.clients[actor].name, victim.name, victim.ip, why);
      assert Kill(s, actor, target, reason, order) == Cast(s3, WallopTo(s3), m);
      assert Silent(m, c) && Silent(Trouble(KickedFromServer), c);
      assert s2.channels == s1.channels && s3.channels == s1.channels
        && Cast(s3, WallopTo(s3), m).channels == s1.channels;
      hide *;
      SyncedLess(s, c, target);
      TearAllSynced(s, target, order, victim.name, said, false, c);
      SilentSynced(s1, {target}, Trouble(KickedFromServer), c, {target});
      DropSynced(s2, target, c);
      SilentSynced(s3, WallopTo(s3), m, c, {});
    } else {
      var code := if s.clients[actor].kind != Agent then PermissionDenied
        else if target !in s.clients then NameInvalid
        else if Admin in s.clients[target].options then PermissionDenied else InvalidArgument;
      assert Kill(s, actor, target, reason, order) == Cast(s, {actor}, Trouble(code));
      assert Silent(Trouble(code), c);
      hide Synced;
      SilentSynced(s, {actor}, Trouble(code), c, {});
    }
  }

  lemma {:induction false} KillAllSynced(s: State, actor: Uuid, plan: seq<Victim>, reason: string, c: Uuid)
    requires Open(s.channels, c) && Synced(s, c, {})
    ensures var t := KillAll(s, actor, plan, reason); Open(t.channels, c) && Synced(t, c, {})
  {
    hide Open, Synced, Kill;
    if plan != [] {
      var u := KillAll(s, actor, plan[..|plan| - 1], reason);
      KillAllSynced(s, actor, plan[..|plan| - 1], reason, c);
      if actor in u.clients {
        KillSynced(u, actor, plan[|plan| - 1].id, reason, plan[|plan| - 1].order, c);
      }
    }
  }

  lemma TellChannels(s: State, id: Uuid, code: Problem)
    ensures Tell(s, id, code).channels == s.channels
  {
  }

  lemma SameBoxesSynced(s: State, t: State, c: Uuid)
    requires Synced(s, c, {}) && t == s.(bans := t.bans)
    ensures Synced(t, c, {})
  {
  }

  lemma KlineSynced(s: State, actor: Uuid, ip: Ip, reason: string, plan: seq<Victim>, c: Uuid)
    requires Open(s.channels, c) && Synced(s, c, {}) && actor in s.clients
    ensures var t := Kline(s, actor, ip, reason, plan); Open(t.channels, c) && Synced(t, c, {})
  {
    var why := BanReason(reason);
    var m := BanNotice(s.clients[actor].name, ip, |plan|, why);
    var s1 := s.(bans := s.bans + [Ban(ip, reason, s.clients[actor].name)]);
    var s2 := Cast(s1, WallopTo(s1), m);
    assert Kline(s, actor, ip, reason, plan) ==
           if s.clients[actor].kind != Agent then Tell(s, actor, PermissionDenied)
           else if Banned(s.bans, ip) then Tell(s, actor, AlreadyMember)
           else KillAll(s2, actor, plan, why);
    assert Silent(m, c);
    hide *;
    TellSynced(s, actor, PermissionDenied, c);
    TellSynced(s, actor, AlreadyMember, c);
    TellChannels(s, actor, PermissionDenied);
    TellChannels(s, actor, AlreadyMember);
    SameBoxesSynced(s, s1, c);
    SilentSynced(s1, WallopTo(s1), m, c, {});
    CastParts(s1, WallopTo(s1), m);
    KillAllSynced(s2, actor, plan, why, c);
  }

  lemma {:induction false} PurgeAllSynced(s: State, plan: seq<Victim>, c: Uuid)
    requires Open(s.channels, c) && Synced(s, c, {})
    ensures var t := PurgeAll(s, plan); Open(t.channels, c) && Synced(t, c, {})
  {
    hide Open, Synced;
    if plan != [] {
      var v, u := plan[|plan| - 1], PurgeAll(s, plan[..|plan| - 1]);
      PurgeAllSynced(s, plan[..|plan| - 1], c);
      if v.id in u.clients {
        TeardownSynced(u, v.id, v.order, u.clients[v.id].name, "ping timeout: 180 seconds", false, c);
      }
    }
  }

  lemma TellSynced(s: State, id: Uuid, code: Problem, c: Uuid)
    requires Synced(s, c, {})
    ensures Synced(Tell(s, id, code), c, {})
  {
    hide Synced;
    SilentSynced(s, {id}, Trouble(code), c, {});
  }

  // Entering

  lemma BroadcastJoinView(s: State, ch: ChannelRec, who: Uuid, name: string, ip: Ip, r: Uuid, c: Uuid)
    ensures var t := BroadcastJoin(s, ch, who, name, ip);
            && (c != ch.id ==> ViewOf(t, r, c) == ViewOf(s, r, c))
            && (c == ch.id && !Veiled(ch.options) ==>
                  ViewOf(t, r, c) == if r in ch.members then React(r, c, ViewOf(s, r, c), Join(c, who, name, MASKED))
                                     else ViewOf(s, r, c))
  {
    hide ViewOf, Deliver;
    var masked, open := Join(ch.id, who, name, MASKED), Join(ch.id, who, name, ip);
    ViewCast(s, NonAgentsOf(ch), masked, r, c);
    ViewCast(Cast(s, NonAgentsOf(ch), masked), AgentsOf(ch), open, r, c);
    ViewCast(s, AgentsOf(ch), open, r, c);
  }

  lemma AnnounceView(s: State, id: Uuid, cid: Uuid, r: Uuid, c: Uuid)
    requires id in s.clients && cid in s.channels && s.channels[cid].id == cid && id !in s.channels[cid].members
    ensures var t, ch := Announce(s, id, cid), s.channels[cid];
            && (c != cid ==> ViewOf(t, r, c) == ViewOf(s, r, c))
            && (c == cid && !Veiled(ch.options) && Unseen !in s.clients[id].options ==>
                  ViewOf(t, r, c) == if r in ch.members then Added(ViewOf(s, r, c), id) else ViewOf(s, r, c))
  {
    hide ViewOf, Deliver, BroadcastJoin, M.Labels, Added;
    var x, ch := s.clients[id], s.channels[cid];
    BroadcastJoinView(s, ch, id, x.name, x.ip, r, c);
    var u := if Unseen !in x.options then BroadcastJoin(s, ch, id, x.name, x.ip) else s;
    SilentCast(u, {id}, ChannelModes(ch.id, M.Labels(ch.options)), c);
  }

  lemma ListSeen(r: Uuid, c: Uuid, view: View, channel: Uuid, users: map<Uuid, string>)
    ensures React(r, c, view, UserList(channel, users)) == if c != channel then view else Filled(view, users.Keys - {r})
  {
  }

  lemma WelcomeView(s: State, id: Uuid, cid: Uuid, lobby: bool, r: Uuid, c: Uuid)
    requires id in s.clients && cid in s.channels && s.channels[cid].id == cid
    ensures var t, ch := Welcome(s, id, cid, lobby), s.channels[cid];
            && (c != cid || r != id ==> ViewOf(t, r, c) == ViewOf(s, r, c))
            && (c == cid && r == id && !Veiled(ch.options) ==>
                  ViewOf(t, r, c) == Filled(Opened(ViewOf(s, r, c), id), ch.members.Keys - {id}))
  {
    var x, ch := s.clients[id], s.channels[cid];
    var seen := M.Invisible !in ch.options || x.kind == Agent;
    var listed := M.HiddenMemberList !in ch.options || (!lobby && x.kind == Agent);
    var m1, m2, m3 := Join(cid, id, x.name, MASKED), UserList(cid, UsersOf(ch)), Topic(cid, ch.topic.UnwrapOr(""));
    var s1 := CastIf(s, seen, {id}, m1);
    var s2 := CastIf(s1, seen && listed, {id}, m2);
    assert Welcome(s, id, cid, lobby) == CastIf(s2, seen && lobby && ch.topic.Some?, {id}, m3);
    assert UsersOf(ch).Keys == ch.members.Keys && Silent(m3, c) && (!Veiled(ch.options) ==> seen && listed);
    hide *;
    JoinSeen(r, c, ViewOf(s, r, c), cid, id, x.name);
    ListSeen(r, c, ViewOf(s1, r, c), cid, UsersOf(ch));
    ViewCastIf(s, seen, {id}, m1, r, c);
    ViewCastIf(s1, seen && listed, {id}, m2, r, c);
    SilentCast(s2, {id}, m3, c);
  }

  lemma ViewCastIf(s: State, cond: bool, to: set<Uuid>, m: Msg, r: Uuid, c: Uuid)
    ensures ViewOf(CastIf(s, cond, to, m), r, c) ==
            if cond && r in to then React(r, c, ViewOf(s, r, c), m) else ViewOf(s, r, c)
  {
    hide ViewOf, Cast, React;
    ViewCast(s, to, m, r, c);
  }

  lemma EnterOpen(s: State, id: Uuid, cid: Uuid, lobby: bool, c: Uuid)
    requires id in s.clients && cid in s.channels && id !in s.channels[cid].members
    requires Open(Enter(s, id, cid, lobby).channels, c)
    ensures Open(s.channels, c)
    ensures c == cid ==> Unseen !in s.clients[id].options
  {
    hide Enter;
    EnterChannels(s, id, cid, lobby);
    var after := Enter(s, id, cid, lobby).channels;
    if c == cid {
      forall m | m in s.channels[c].members ensures Unseen !in s.channels[c].members[m].options {
        assert after[c].members[m] == s.channels[c].members[m];
      }
      assert id in after[c].members && after[c].members[id] == Clone(s.clients[id]);
    }
  }

  lemma EnterParts(s: State, id: Uuid, cid: Uuid, lobby: bool)
    requires id in s.clients && cid in s.channels
    ensures var s1, s2 := Announce(s, id, cid), Admit(s, id, cid);
            && s2.outbox == s1.outbox && id in s2.clients && cid in s2.channels
            && s2.channels[cid].id == s.channels[cid].id && s2.channels[cid].options == s.channels[cid].options
            && s2.channels[cid].members.Keys == s.channels[cid].members.Keys + {id}
            && Enter(s, id, cid, lobby) == Welcome(s2, id, cid, lobby)
  {
    hide Announce, Welcome;
  }

  lemma EnterView(s: State, id: Uuid, cid: Uuid, lobby: bool, r: Uuid, c: Uuid)
    requires id in s.clients && cid in s.channels && s.channels[cid].id == cid && id !in s.channels[cid].members
    ensures var t, ch := Enter(s, id, cid, lobby), s.channels[cid];
            && (c != cid ==> ViewOf(t, r, c) == ViewOf(s, r, c))
            && (c == cid && !Veiled(ch.options) && Unseen !in s.clients[id].options ==>
                  ViewOf(t, r, c) ==
                    if r == id then Filled(Opened(ViewOf(s, r, c), id), ch.members.Keys + {id} - {id})
                    else if r in ch.members then Added(ViewOf(s, r, c), id)
                    else ViewOf(s, r, c))
  {
    hide Enter, Admit, Announce, Welcome, ViewOf, Veiled, Filled, Opened, Added;
    var s1, s2 := Announce(s, id, cid), Admit(s, id, cid);
    EnterParts(s, id, cid, lobby);
    AnnounceView(s, id, cid, r, c);
    SameBoxView(s1, s2, r, c);
    WelcomeView(s2, id, cid, lobby, r, c);
  }

  lemma EnterAt(s: State, id: Uuid, cid: Uuid, lobby: bool, r: Uuid, c: Uuid)
    requires id in s.clients && cid in s.channels && s.channels[cid].id == cid && id !in s.channels[cid].members
    requires ViewOf(s, r, c) == Expected(s.channels, r, c) && Open(Enter(s, id, cid, lobby).channels, c)
    ensures var t := Enter(s, id, cid, lobby); ViewOf(t, r, c) == Expected(t.channels, r, c)
  {
    var t, ch := Enter(s, id, cid, lobby), s.channels[cid];
    EnterOpen(s, id, cid, lobby, c);
    EnterChannels(s, id, cid, lobby);
    assert t.channels[cid].members.Keys == ch.members.Keys + {id} by {
      hide Enter;
    }
    hide Enter, ViewOf, Veiled, Filled, Opened, Added, Once;
    EnterView(s, id, cid, lobby, r, c);
    OnceAdded(ch.members.Keys, id);
    OnceFilled(ch.members.Keys + {id}, id);
  }

  /** Whoever enters learns all members, and all members learn of it, each exactly once. */
  lemma EnterSynced(s: State, id: Uuid, cid: Uuid, lobby: bool, c: Uuid)
    requires id in s.clients && cid in s.channels && s.channels[cid].id == cid && id !in s.channels[cid].members
    requires Synced(s, c, {}) && Open(Enter(s, id, cid, lobby).channels, c)
    ensures Synced(Enter(s, id, cid, lobby), c, {})
  {
    hide Enter, ViewOf, Expected, Open;
    var t := Enter(s, id, cid, lobby);
    forall r | r in t.clients ensures ViewOf(t, r, c) == Expected(t.channels, r, c) {
      EnterAt(s, id, cid, lobby, r, c);
    }
  }

  lemma EnterLobbySynced(s: State, id: Uuid, use: bool, lobby: Option<Uuid>, c: Uuid)
    requires Inv(s) && id in s.clients
    requires lobby.Some? && lobby.value in s.channels ==> MayEnter(s, id, lobby.value)
    requires Synced(s, c, {}) && Open(EnterLobby(s, id, use, lobby).channels, c)
    ensures Synced(EnterLobby(s, id, use, lobby), c, {}) && Open(s.channels, c)
  {
    hide Inv, Enter, Synced, Open;
    if use && lobby.Some? && lobby.value in s.channels {
      assert s.channels[lobby.value].id == lobby.value by { OpenInv(s); }
      EnterSynced(s, id, lobby.value, true, c);
      EnterOpen(s, id, lobby.value, true, c);
    }
  }

  lemma LoginSynced(s: State, id: Uuid, name: string, kind: ClientType, options: set<Power>,
                    g: bool, global: Option<Uuid>, l: bool, local: Option<Uuid>, lobby: string, c: Uuid)
    requires Inv(s) && id in s.clients && s.clients[id].kind == Unknown && kind != Unknown
    requires !NameTaken(s, name) && T.ClientName(name)
    requires ExactLookup(s, GLOBAL_LOBBY, global) && ExactLookup(s, lobby, local) && lobby != GLOBAL_LOBBY
    requires OpenLobby(lobby) || kind == Agent
    requires Synced(s, c, {})
    requires Open(EnterLobby(EnterLobby(SignIn(s, id, name, kind, options), id, g, global), id, l, local).channels, c)
    ensures Synced(EnterLobby(EnterLobby(SignIn(s, id, name, kind, options), id, g, global), id, l, local), c, {})
  {
    var s1 := SignIn(s, id, name, kind, options);
    SignInSynced(s, id, name, kind, options, c);
    hide *;
    var s2 := EnterLobby(s1, id, g, global);
    SignInKeeps(s, id, name, kind, options);
    LookupFrame(s, s1, GLOBAL_LOBBY, global);
    LookupFrame(s, s1, lobby, local);
    GlobalIsOpen(s1, id, global);
    EnterLobbyKeeps(s1, id, g, global);
    SecondLobby(s1, s2, id, global, local, lobby);
    EnterLobbyOpen(s2, id, l, local, c);
    EnterLobbySynced(s1, id, g, global, c);
    EnterLobbySynced(s2, id, l, local, c);
  }

  lemma EnterLobbyOpen(s: State, id: Uuid, use: bool, lobby: Option<Uuid>, c: Uuid)
    requires id in s.clients
    requires lobby.Some? && lobby.value in s.channels ==> MayEnter(s, id, lobby.value)
    requires Open(EnterLobby(s, id, use, lobby).channels, c)
    ensures Open(s.channels, c)
  {
    hide Enter, Open;
    if use && lobby.Some? && lobby.value in s.channels {
      EnterOpen(s, id, lobby.value, true, c);
    }
  }

  lemma SignInSynced(s: State, id: Uuid, name: string, kind: ClientType, options: set<Power>, c: Uuid)
    requires id in s.clients && Synced(s, c, {})
    ensures Synced(SignIn(s, id, name, kind, options), c, {})
  {
    var s1 := s.(clients :=
      s.clients[id := s.clients[id].(name := name, kind := kind, options := options, status := Connected)]);
    assert Synced(s1, c, {}) by {
      hide Fold;
    }
    hide Synced;
    SilentSynced(s1, {id}, AuthOk(id, name), c, {});
  }

  // The other commands

  lemma BroadcastPartView(s: State, ch: ChannelRec, who: Uuid, ip: Ip, r: Uuid, c: Uuid)
    ensures var t := BroadcastPart(s, ch, who, ip);
            && (c != ch.id ==> ViewOf(t, r, c) == ViewOf(s, r, c))
            && (c == ch.id && !Veiled(ch.options) ==>
                  ViewOf(t, r, c) == if r in ch.members then React(r, c, ViewOf(s, r, c), Part(c, who, MASKED))
                                     else ViewOf(s, r, c))
  {
    hide ViewOf, Deliver;
    var masked, open := Part(ch.id, who, MASKED), Part(ch.id, who, ip);
    ViewCast(s, NonAgentsOf(ch), masked, r, c);
    ViewCast(Cast(s, NonAgentsOf(ch), masked), AgentsOf(ch), open, r, c);
  }

  lemma LeaveParts(s: State, actor: Uuid, cid: Uuid)
    requires actor in s.clients && cid in s.channels
    ensures var t, s1, rest := Leave(s, actor, cid), Cast(s, {actor}, Part(cid, actor, MASKED)),
            Without(s.channels[cid], actor);
            && t.clients == s.clients
            && t.outbox == BroadcastPart(s1, rest, actor, s.clients[actor].ip).outbox
  {
    hide Deliver;
  }

  lemma OwnPartView(s: State, actor: Uuid, cid: Uuid, r: Uuid, c: Uuid)
    ensures ViewOf(Cast(s, {actor}, Part(cid, actor, MASKED)), r, c) ==
            if c == cid && r == actor then None else ViewOf(s, r, c)
  {
    hide ViewOf, Cast;
    ViewCast(s, {actor}, Part(cid, actor, MASKED), r, c);
  }

  lemma LeaveView(s: State, actor: Uuid, cid: Uuid, r: Uuid, c: Uuid)
    requires actor in s.clients && cid in s.channels && s.channels[cid].id == cid
    ensures var t, ch := Leave(s, actor, cid), s.channels[cid];
            && (c != cid ==> ViewOf(t, r, c) == ViewOf(s, r, c))
            && (c == cid && r == actor && !Veiled(ch.options) ==> ViewOf(t, r, c) == None)
            && (c == cid && r != actor && !Veiled(ch.options) ==>
                  ViewOf(t, r, c) == if r in ch.members then Removed(ViewOf(s, r, c), actor) else ViewOf(s, r, c))
  {
    var m := Part(cid, actor, MASKED);
    var s1, rest := Cast(s, {actor}, m), Without(s.channels[cid], actor);
    var s3 := BroadcastPart(s1, rest, actor, s.clients[actor].ip);
    assert forall v: View :: React(r, cid, v, m) == if r == actor then None else Removed(v, actor);
    hide *;
    LeaveParts(s, actor, cid);
    WithoutKeys(s.channels[cid], actor);
    WithoutId(s.channels[cid], actor);
    OwnPartView(s, actor, cid, r, c);
    BroadcastPartView(s1, rest, actor, s.clients[actor].ip, r, c);
    SameBoxView(s3, Leave(s, actor, cid), r, c);
  }

  lemma WithoutId(ch: ChannelRec, id: Uuid)
    ensures Without(ch, id).id == ch.id
  {
  }

  /** What taking one member out of one channel means for what everybody should see. */
  lemma ExpectedWithout(channels: Channels, after: Channels, cid: Uuid, id: Uuid, r: Uuid, c: Uuid)
    requires cid in channels
    requires after == channels[cid := Without(channels[cid], id)]
             || (after == channels - {cid} && Without(channels[cid], id).members == map[])
    ensures Expected(after, r, c) ==
            if c != cid then Expected(channels, r, c)
            else if r == id || r !in channels[cid].members then None
            else Removed(Expected(channels, r, c), id)
    ensures r !in channels[cid].members ==> Expected(channels, r, cid) == None
  {
    WithoutKeys(channels[cid], id);
    hide Without, Once, Removed;
    OnceRemoved(channels[cid].members.Keys, id);
  }

  lemma LeaveAt(s: State, actor: Uuid, cid: Uuid, r: Uuid, c: Uuid)
    requires actor in s.clients && cid in s.channels && s.channels[cid].id == cid && Open(s.channels, c)
    requires ViewOf(s, r, c) == Expected(s.channels, r, c)
    ensures ViewOf(Leave(s, actor, cid), r, c) == Expected(Leave(s, actor, cid).channels, r, c)
  {
    LeaveChannels(s, actor, cid);
    var t := Leave(s, actor, cid);
    assert t.channels == s.channels[cid := Without(s.channels[cid], actor)]
           || (t.channels == s.channels - {cid} && Without(s.channels[cid], actor).members == map[]) by {
      hide Leave, Without;
    }
    hide *;
    LeaveView(s, actor, cid, r, c);
    ExpectedWithout(s.channels, t.channels, cid, actor, r, c);
    OpenParts(s.channels, c);
  }

  lemma OpenParts(channels: Channels, c: Uuid)
    requires Open(channels, c)
    ensures c in channels ==> !Veiled(channels[c].options)
  {
  }

  lemma LeaveSynced(s: State, actor: Uuid, cid: Uuid, c: Uuid)
    requires actor in s.clients && cid in s.channels && s.channels[cid].id == cid
    requires Synced(s, c, {}) && Open(s.channels, c)
    ensures Synced(Leave(s, actor, cid), c, {})
  {
    LeaveParts(s, actor, cid);
    hide Leave, ViewOf, Open, Expected, BroadcastPart, Cast, Without;
    forall r | r in Leave(s, actor, cid).clients
      ensures ViewOf(Leave(s, actor, cid), r, c) == Expected(Leave(s, actor, cid).channels, r, c)
    {
      LeaveAt(s, actor, cid, r, c);
    }
  }

  lemma KickAt(s: State, actor: Uuid, cid: Uuid, user: Uuid, reason: string, r: Uuid, c: Uuid)
    requires actor in s.clients && MayKick(s, actor, cid, user) && ViewOf(s, r, c) == Expected(s.channels, r, c)
    ensures ViewOf(KickFrom(s, actor, cid, user, reason), r, c) ==
            Expected(KickFrom(s, actor, cid, user, reason).channels, r, c)
  {
    var ch, m := s.channels[cid], Kick(cid, user, reason);
    var t := KickFrom(s, actor, cid, user, reason);
    KickParts(s, actor, cid, user, reason);
    hide KickFrom, ViewOf, Without, Deliver, Cast, MayKick, Owns, Expected;
    ViewCast(s, ch.members.Keys, m, r, c);
    SameBoxView(Cast(s, ch.members.Keys, m), t, r, c);
    ExpectedWithout(s.channels, t.channels, cid, user, r, c);
  }

  lemma KickView(s: State, actor: Uuid, cid: Uuid, user: Uuid, reason: string, c: Uuid)
    requires actor in s.clients && MayKick(s, actor, cid, user) && Synced(s, c, {})
    ensures Synced(KickFrom(s, actor, cid, user, reason), c, {})
  {
    KickParts(s, actor, cid, user, reason);
    hide KickFrom, ViewOf, MayKick, Expected, Without, Cast;
    forall r | r in KickFrom(s, actor, cid, user, reason).clients
      ensures ViewOf(KickFrom(s, actor, cid, user, reason), r, c) ==
              Expected(KickFrom(s, actor, cid, user, reason).channels, r, c)
    {
      KickAt(s, actor, cid, user, reason, r, c);
    }
  }

  lemma KickSynced(s: State, actor: Uuid, cid: Uuid, user: Uuid, reason: string, c: Uuid)
    requires actor in s.clients && Synced(s, c, {})
    ensures Synced(KickFrom(s, actor, cid, user, reason), c, {})
  {
    if MayKick(s, actor, cid, user) {
      KickView(s, actor, cid, user, reason, c);
    } else {
      hide Synced, Tell;
      TellSynced(s, actor, ChannelInvalid, c);
      TellSynced(s, actor, PermissionDenied, c);
      TellSynced(s, actor, NotMember, c);
    }
  }

  lemma CreateParts(s: State, actor: Uuid, name: string, newId: Uuid)
    requires actor in s.clients
    ensures var t := Create(s, actor, name, newId);
            var s0 := s.(channels := s.channels[newId := NewChannel(newId, name, actor)], issued := s.issued + {newId});
            && t.outbox == Cast(Announce(s0, actor, newId), {actor},
                                Join(newId, actor, s.clients[actor].name, MASKED)).outbox
            && t.clients.Keys == s.clients.Keys
  {
    hide Deliver, M.Labels, BroadcastJoin;
  }

  function NewChannel(id: Uuid, name: string, owner: Uuid): ChannelRec {
    ChannelRec(id, name, Some(owner), map[], None, {M.ClientInvites, M.SaveHistory})
  }

  lemma NewChannelParts(s: State, actor: Uuid, name: string, newId: Uuid)
    ensures var ch := NewChannel(newId, name, actor);
            !Veiled(ch.options) && ch.members == map[] && ch.id == newId
  {
  }

  lemma JoinSeen(r: Uuid, c: Uuid, view: View, channel: Uuid, who: Uuid, name: string)
    ensures React(r, c, view, Join(channel, who, name, MASKED)) ==
            if c != channel then view else if who == r then Opened(view, r) else Added(view, who)
  {
  }

  lemma CreateView(s: State, actor: Uuid, name: string, newId: Uuid, r: Uuid, c: Uuid)
    requires actor in s.clients && (c == newId ==> Unseen !in s.clients[actor].options)
    ensures ViewOf(Create(s, actor, name, newId), r, c) ==
            if c == newId && r == actor then Opened(ViewOf(s, r, c), actor) else ViewOf(s, r, c)
  {
    var t, ch := Create(s, actor, name, newId), NewChannel(newId, name, actor);
    var s0 := s.(channels := s.channels[newId := ch], issued := s.issued + {newId});
    CreateParts(s, actor, name, newId);
    var s1, m := Announce(s0, actor, newId), Join(newId, actor, s.clients[actor].name, MASKED);
    NewChannelParts(s, actor, name, newId);
    hide Create, Announce, ViewOf, Deliver, Cast, Veiled, NewChannel;
    SameBoxView(s, s0, r, c);
    assert s0.channels[newId] == ch && actor in s0.clients && s0.clients == s.clients;
    hide *;
    AnnounceView(s0, actor, newId, r, c);
    JoinSeen(r, c, ViewOf(s, r, c), newId, actor, s.clients[actor].name);
    ViewCast(s1, {actor}, m, r, c);
    SameBoxView(Cast(s1, {actor}, m), t, r, c);
  }

  lemma CreateAt(s: State, actor: Uuid, name: string, newId: Uuid, r: Uuid, c: Uuid)
    requires actor in s.clients && newId !in s.channels && Open(Create(s, actor, name, newId).channels, c)
    requires ViewOf(s, r, c) == Expected(s.channels, r, c)
    ensures ViewOf(Create(s, actor, name, newId), r, c) == Expected(Create(s, actor, name, newId).channels, r, c)
  {
    var t := Create(s, actor, name, newId);
    CreatedChannels(s, actor, name, newId);
    hide Create, ViewOf, Veiled, Once, Opened;
    OnceAlone(actor);
    if c == newId {
      var x := t.channels[c].members;
      assert x == map[actor := Clone(s.clients[actor])] && actor in x && x.Keys == {actor};
      assert x[actor].options == s.clients[actor].options;
    }
    CreateView(s, actor, name, newId, r, c);
  }

  lemma CreateSynced(s: State, actor: Uuid, name: string, newId: Uuid, c: Uuid)
    requires actor in s.clients && newId !in s.channels && Synced(s, c, {})
    requires Open(Create(s, actor, name, newId).channels, c)
    ensures Synced(Create(s, actor, name, newId), c, {})
  {
    CreateParts(s, actor, name, newId);
    hide Create, Announce, ViewOf, Cast, NewChannel, Open, Expected;
    forall r | r in Create(s, actor, name, newId).clients
      ensures ViewOf(Create(s, actor, name, newId), r, c) == Expected(Create(s, actor, name, newId).channels, r, c)
    {
      CreateAt(s, actor, name, newId, r, c);
    }
  }

  lemma SettingsSynced(s: State, cid: Uuid, ch: ChannelRec, m1: Msg, m2: Msg, c: Uuid)
    requires Synced(s, c, {}) && cid in s.channels && ch.members == s.channels[cid].members && Silent(m1, c)
             && Silent(m2, c)
    ensures Synced(Cast(Cast(s.(channels := s.channels[cid := ch]), ch.members.Keys, m1), ch.members.Keys, m2), c, {})
  {
    var s1 := s.(channels := s.channels[cid := ch]);
    assert Synced(s1, c, {}) by {
      hide Fold;
    }
    hide Synced;
    SilentSynced(s1, ch.members.Keys, m1, c, {});
    SilentSynced(Cast(s1, ch.members.Keys, m1), ch.members.Keys, m2, c, {});
  }

  lemma ModesSynced(s: State, actor: Uuid, cid: Uuid, modes: M.U64, c: Uuid)
    requires actor in s.clients && Synced(s, c, {})
    ensures Synced(SetModes(s, actor, cid, modes), c, {})
  {
    hide Synced, ModesAfter, M.Labels, Tell;
    TellSynced(s, actor, ChannelInvalid, c);
    TellSynced(s, actor, PermissionDenied, c);
    if cid in s.channels {
      var ch := s.channels[cid];
      var after := ModesAfter(ch, s.clients[actor], modes);
      SettingsSynced(s, cid, ch.(options := after),
                     Text(cid, NIL, s.clients[actor].name, "has changed the channel modes."),
                     ChannelModes(cid, M.Labels(after)), c);
    }
  }

  lemma TopicSynced(s: State, actor: Uuid, cid: Uuid, topic: string, c: Uuid)
    requires actor in s.clients && Synced(s, c, {})
    ensures Synced(SetTopic(s, actor, cid, topic), c, {})
  {
    hide Synced, Tell, T.Escape;
    TellSynced(s, actor, ChannelInvalid, c);
    TellSynced(s, actor, PermissionDenied, c);
    TellSynced(s, actor, InvalidArgument, c);
    if cid in s.channels {
      var ch, clean := s.channels[cid], T.Escape(topic);
      SettingsSynced(s, cid, ch.(topic := if clean == "" then None else Some(clean)),
                     Text(cid, NIL, s.clients[actor].name, "has changed the channel topic."), Topic(cid, clean), c);
    }
  }

  lemma SaySynced(s: State, actor: Uuid, cid: Uuid, text: string, c: Uuid)
    requires actor in s.clients && Synced(s, c, {})
    ensures Synced(Say(s, actor, cid, text), c, {})
  {
    hide Synced, T.Escape, Hearers, Deliver;
    if cid in s.channels {
      SilentSynced(s, Hearers(s.channels[cid], actor), Text(cid, actor, s.clients[actor].name, T.Escape(text)), c, {});
    }
  }

  lemma PartSynced(s: State, actor: Uuid, cid: Uuid, c: Uuid)
    requires Inv(s) && actor in s.clients && Synced(s, c, {}) && Open(s.channels, c)
    ensures Synced(PartFrom(s, actor, cid), c, {})
  {
    hide Synced, Tell, Leave, Inv, Open;
    TellSynced(s, actor, ChannelInvalid, c);
    TellSynced(s, actor, PermissionDenied, c);
    TellSynced(s, actor, NotMember, c);
    if cid in s.channels {
      OpenInv(s);
      LeaveSynced(s, actor, cid, c);
    }
  }

  lemma JoinSynced(s: State, actor: Uuid, channel: string, found: Option<Uuid>, newId: Uuid, c: Uuid)
    requires Inv(s) && actor in s.clients && (found.Some? ==> found.value in s.channels) && UnusedId(s, newId)
    requires Synced(s, c, {}) && Open(JoinTo(s, actor, channel, found, newId).channels, c)
    ensures Synced(JoinTo(s, actor, channel, found, newId), c, {})
  {
    hide Synced, Tell, Enter, Create, Inv, Open, LooksLikeV4, T.ChannelName;
    TellSynced(s, actor, ChannelInvalid, c);
    TellSynced(s, actor, ChannelNameBad, c);
    TellSynced(s, actor, PermissionDenied, c);
    TellSynced(s, actor, AlreadyMember, c);
    OpenInv(s);
    if found.Some? {
      if JoinTo(s, actor, channel, found, newId) == Enter(s, actor, found.value, false)
        && actor !in s.channels[found.value].members {
        EnterSynced(s, actor, found.value, false, c);
      }
    } else if JoinTo(s, actor, channel, found, newId) == Create(s, actor, channel, newId) {
      CreateSynced(s, actor, channel, newId, c);
    }
  }

  lemma AuthGuestSynced(s: State, id: Uuid, name: string, global: Option<Uuid>, local: Option<Uuid>, c: Uuid)
    requires Inv(s) && id in s.clients && s.clients[id].kind == Unknown && Synced(s, c, {})
    requires ExactLookup(s, GLOBAL_LOBBY, global) && ExactLookup(s, GUEST_LOBBY, local)
    requires Open(AuthGuest(s, id, name, global, local).channels, c)
    ensures Synced(AuthGuest(s, id, name, global, local), c, {})
  {
    hide Synced, Tell, SignIn, EnterLobby, Inv, Open, T.ClientName, NameTaken, ExactLookup;
    TellSynced(s, id, NotAvailable, c);
    TellSynced(s, id, NameInUse, c);
    TellSynced(s, id, NameInvalid, c);
    if s.conf.allowGuests && !NameTaken(s, name) && T.ClientName(name) {
      LoginSynced(s, id, name, Guest, s.conf.guestOptions, s.conf.useGlobal, global, s.conf.useGuest, local,
                  GUEST_LOBBY, c);
    }
  }

  lemma AuthAgentSynced(s: State, id: Uuid, name: string, permissions: Option<set<Power>>,
                        global: Option<Uuid>, local: Option<Uuid>, c: Uuid)
    requires Inv(s) && id in s.clients && s.clients[id].kind == Unknown && Synced(s, c, {})
    requires ExactLookup(s, GLOBAL_LOBBY, global) && ExactLookup(s, STAFF_LOBBY, local)
    requires Open(AuthAgent(s, id, name, permissions, global, local).channels, c)
    ensures Synced(AuthAgent(s, id, name, permissions, global, local), c, {})
  {
    hide Synced, Tell, SignIn, EnterLobby, Inv, Open, T.ClientName, NameTaken, ExactLookup, DropClient;
    TellSynced(s, id, InvalidAuth, c);
    TellSynced(s, id, NameInUse, c);
    TellSynced(s, id, NameInvalid, c);
    if permissions.None? {
      SyncedLess(Tell(s, id, InvalidAuth), c, id);
      DropSynced(Tell(s, id, InvalidAuth), id, c);
    } else if !NameTaken(s, name) && T.ClientName(name) {
      LoginSynced(s, id, name, Agent, permissions.value, s.conf.useGlobal, global, s.conf.useStaff, local, STAFF_LOBBY,
                  c);
    }
  }

  lemma TouchSynced(s: State, id: Uuid, now: Time, c: Uuid)
    requires id in s.clients && Synced(s, c, {})
    ensures Synced(Touch(s, id, now), c, {}) && Touch(s, id, now).channels == s.channels
  {
    hide Fold;
  }

  /** Nothing was ever sent to a new id, and it is a member nowhere. */
  lemma AcceptSynced(s: State, id: Uuid, ip: Ip, name: string, now: Time, c: Uuid)
    requires Inv(s) && UnusedId(s, id) && Synced(s, c, {})
    ensures Synced(Accept(s, id, ip, name, now), c, {})
  {
    var t := Accept(s, id, ip, name, now);
    NewcomerView(s, id, c);
    hide Inv, Banned, Expected, Fold;
    forall r | r in t.clients ensures ViewOf(t, r, c) == Expected(t.channels, r, c) {
      SameBoxView(s, t, r, c);
    }
  }

  lemma NewcomerView(s: State, id: Uuid, c: Uuid)
    requires Inv(s) && UnusedId(s, id)
    ensures ViewOf(s, id, c) == None && Expected(s.channels, id, c) == None
  {
    OpenInv(s);
    hide Inv, Standing, Names, Topics, ChannelIds;
    assert Box(s.outbox, id) == [];
    if c in s.channels {
      assert Listed(s.clients, c, s.channels[c]);
    }
  }

  lemma CheckSynced(s: State, now: Time, plan: seq<Victim>, c: Uuid)
    requires Synced(s, c, {}) && Open(s.channels, c)
    ensures Synced(HealthCheck(s, now, plan), c, {})
  {
    var s1 := s.(clients := map k | k in s.clients :: Checked(s.clients[k], now));
    assert Synced(s1, c, {}) by {
      hide Fold;
    }
    var s2 := Cast(s1, PingedIn(s, now), Ping(now));
    assert Inspect(s, now).channels == s.channels && Inspect(s, now) == Cast(s2, ExpiredIn(s, now), PingTimeout);
    hide Synced, Open, Inspect, PurgeAll, Deliver, ExpiredIn, PingedIn;
    SilentSynced(s1, PingedIn(s, now), Ping(now), c, {});
    SilentSynced(s2, ExpiredIn(s, now), PingTimeout, c, {});
    PurgeAllSynced(Inspect(s, now), plan, c);
  }

  lemma CommandSynced(s: State, id: Uuid, cmd: Command, x: Chance, c: Uuid)
    requires Inv(s) && id in s.clients && LegalCommand(s, id, cmd, x)
    requires Synced(s, c, {}) && Open(s.channels, c) && Open(Handle(s, id, cmd, x).channels, c)
    ensures Synced(Handle(s, id, cmd, x), c, {})
  {
    hide *;
    PendingIsUnknown(s, id);
    CommandChoices(s, id, cmd, x);
    HandleIs(s, id, cmd, x);
    if s.clients[id].status == PendingAuth {
      match cmd
      case GuestLogin(username) => AuthGuestSynced(s, id, GuestName(username, x.guestName), x.global, x.local, c);
      case AgentLogin(nickname, permissions) => AuthAgentSynced(s, id, nickname, permissions, x.global, x.local, c);
      case DeviceLogin =>
      case _ => DisconnectSynced(s, id, "bad request pre-auth", x.own, c);
    } else {
      match cmd
      case JoinChannel(name, target) =>
        JoinSynced(s, id, JoinText(name, target), JoinFound(s, name, target, x.named), x.newId, c);
      case PartChannel(channel) => PartSynced(s, id, channel, c);
      case KickMember(channel, user, reason) => KickSynced(s, id, channel, user, reason, c);
      case KillClient(user, reason) => KillSynced(s, id, user, reason, x.order, c);
      case BanIp(ip, reason) => KlineSynced(s, id, ip, reason, x.plan, c);
      case ChangeModes(channel, modes) => ModesSynced(s, id, channel, modes, c);
      case ChangeTopic(channel, topic) => TopicSynced(s, id, channel, topic, c);
      case SayText(channel, text) => SaySynced(s, id, channel, text, c);
      case ListChannels => ListSynced(s, id, c);
      case _ =>
    }
  }

  lemma ListSynced(s: State, actor: Uuid, c: Uuid)
    requires actor in s.clients && Synced(s, c, {})
    ensures Synced(ListTo(s, actor), c, {})
  {
    hide Synced, Deliver, ListFor;
    SilentSynced(s, {actor}, ChannelList(ListFor(s.channels, s.clients[actor].kind)), c, {});
  }

  lemma PendingIsUnknown(s: State, id: Uuid)
    requires Inv(s) && id in s.clients
    ensures s.clients[id].status == PendingAuth ==> s.clients[id].kind == Unknown
  {
    hide Inv;
    StandingAt(s, id);
  }

  lemma DisconnectSynced(s: State, id: Uuid, reason: string, order: seq<Uuid>, c: Uuid)
    requires id in s.clients && Synced(s, c, {}) && Open(s.channels, c)
    ensures Synced(Disconnect(s, id, reason, order), c, {})
  {
    hide Synced, Open;
    TeardownSynced(s, id, order, s.clients[id].name, reason, true, c);
  }

  /** Every step keeps all browsers synchronised with an open channel. */
  lemma SyncedStep(s: State, op: Op, c: Uuid)
    requires Inv(s) && Legal(s, op) && CanAct(s, op)
    requires Synced(s, c, {}) && Open(s.channels, c) && Open(Apply(s, op).channels, c)
    ensures Synced(Apply(s, op), c, {})
  {
    hide Inv, Synced, Open, Handle, Accept, Disconnect, HealthCheck, LegalCommand, UnusedId, ClockOk, Plans,
      Enumerates;
    match op
    case Connect(id, ip, name, now) => AcceptSynced(s, id, ip, name, now, c);
    case Issue(id, cmd, x) =>
      if id in s.clients {
        var u := Touch(s, id, x.now);
        assert u.clients[id].status == s.clients[id].status;
        TouchKeeps(s, id, x.now);
        TouchSynced(s, id, x.now, c);
        LegalAfterTouch(s, id, cmd, x);
        CommandSynced(u, id, cmd, x, c);
      }
    case ReadError(id, reason, order) =>
      if id in s.clients {
        DisconnectSynced(s, id, reason, order, c);
      }
    case Check(now, plan) => CheckSynced(s, now, plan, c);
  }

  lemma NothingYet(u: Setup, c: Uuid)
    ensures Synced(Start(u), c, {})
  {
  }

  /** In every run, for a channel that always showed its members and never admitted an invisible client: folding what
      a client received so far gives exactly the channel's members if the client is one of them, and no room
      otherwise. */
  lemma {:induction false} RostersReplicate(r: Run, i: nat, c: Uuid)
    requires IsRun(r) && i < |r.states|
    requires forall k :: 0 <= k <= i ==> Open(r.states[k].channels, c)
    ensures Synced(r.states[i], c, {})
  {
    hide Inv, Legal, Apply, Synced, Open, CanAct, Settled, Evolves;
    if i == 0 {
      NothingYet(r.setup, c);
    } else {
      RostersReplicate(r, i - 1, c);
      RunStep(r, i - 1);
      SyncedStep(r.states[i - 1], r.ops[i - 1], c);
    }
  }
}
