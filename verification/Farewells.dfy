/** Who is told what when clients go: by a kill, a broken connection, missing pings or a ban. */
module Farewells {
  import opened Basics
  import opened Uuids
  import opened Messages
  import opened Machine
  import opened Invariants
  import opened SmallSteps
  import opened Departure
  import opened Handlers
  import opened Steps
  import opened Effects
  import M = Modes
  import T = Text

  /** When `id` goes, `r` hears of it in the channel: as another member, and if the loss of a connection is concerned
      and the member list is hidden or the channel invisible, as an agent. */
  predicate Hears(s: State, id: Uuid, c: Uuid, discreet: bool, r: Uuid) {
    && r != id && c in s.channels && r in s.channels[c].members
    && (discreet && (M.HiddenMemberList in s.channels[c].options || M.Invisible in s.channels[c].options) ==>
          IsAgent(s.clients, r))
  }

  /** What `r` hears when the channels of the list are left in this order. */
  function QuitsTo(s: State, id: Uuid, order: seq<Uuid>, text: string, discreet: bool, r: Uuid): seq<Msg>
    requires id in s.clients
  {
    if order == [] then []
    else
      var c := order[|order| - 1];
      QuitsTo(s, id, order[..|order| - 1], text, discreet, r)
      + if Hears(s, id, c, discreet, r) then [Quit(c, id, s.clients[id].name, text)] else []
  }

  /** One Quit for each channel of the list in which it is heard, and no other message. */
  lemma {:induction false} OneQuitEach(s: State, id: Uuid, order: seq<Uuid>, text: string, discreet: bool, r: Uuid,
                                       m: Msg)
    requires id in s.clients && forall i, j :: 0 <= i < j < |order| ==> order[i] != order[j]
    ensures multiset(QuitsTo(s, id, order, text, discreet, r))[m] ==
            if m.Quit? && m.channel in order && m == Quit(m.channel, id, s.clients[id].name, text)
               && Hears(s, id, m.channel, discreet, r) then 1 else 0
  {
    hide Hears;
    if order != [] {
      var n := |order| - 1;
      OneQuitEach(s, id, order[..n], text, discreet, r, m);
      assert order == order[..n] + [order[n]];
    }
  }

  /** One turn, of a loop that visited other channels before. */
  lemma TurnMail(s: State, u: State, id: Uuid, done: set<Uuid>, c: Uuid, name: string, text: string, discreet: bool,
                 r: Uuid)
    requires Inv(s) && u.channels == Torn(s.channels, id, done)
    ensures Box(Tear(u, id, c, name, text, discreet).outbox, r) ==
            Box(u.outbox, r) + if Hears(s, id, c, discreet, r) then [Quit(c, id, name, text)] else []
  {
    TornHears(s, u.channels, id, done, c, discreet, r);
    if c in u.channels {
      hide *;
      TearParts(u, id, c, name, text, discreet);
      CastBox(u, Told(u.channels[c], id, discreet), Quit(c, id, name, text), r);
    } else {
      hide Inv, Torn, Hears;
    }
  }

  lemma CastBox(s: State, to: set<Uuid>, m: Msg, r: Uuid)
    ensures Box(Cast(s, to, m).outbox, r) == Box(s.outbox, r) + if r in to then [m] else []
  {
  }

  /** Who hears of it does not depend on what the loop did before. */
  lemma TornHears(s: State, channels: Channels, id: Uuid, done: set<Uuid>, c: Uuid, discreet: bool, r: Uuid)
    requires Inv(s) && channels == Torn(s.channels, id, done)
    ensures if c in channels then r in Told(channels[c], id, discreet) <==> Hears(s, id, c, discreet, r)
            else !Hears(s, id, c, discreet, r)
  {
    if c in channels {
      MemberIsAgent(s, c, r);
      assert channels[c] == s.channels[c] || channels[c] == Without(s.channels[c], id);
    }
    hide Inv, Torn, IsAgent;
  }

  lemma {:induction false} LoopMail(s: State, id: Uuid, order: seq<Uuid>, text: string, discreet: bool, r: Uuid)
    requires Inv(s) && id in s.clients
    ensures var t := TearAll(s, id, order, s.clients[id].name, text, discreet);
            Box(t.outbox, r) == Box(s.outbox, r) + QuitsTo(s, id, order, text, discreet, r)
  {
    hide *;
    LoopIs(s, id, order, s.clients[id].name, text, discreet);
    QuitsAre(s, id, order, text, discreet, r);
    if order != [] {
      var n, name := |order| - 1, s.clients[id].name;
      var u := TearAll(s, id, order[..n], name, text, discreet);
      LoopMail(s, id, order[..n], text, discreet, r);
      TearAllTorn(s, id, order[..n], name, text, discreet);
      TornChannels(s, u, id, order[..n]);
      TurnMail(s, u, id, Elements(order[..n]), order[n], name, text, discreet, r);
      Regroup(Box(s.outbox, r), QuitsTo(s, id, order[..n], text, discreet, r),
              if Hears(s, id, order[n], discreet, r) then [Quit(order[n], id, name, text)] else [], []);
    }
  }

  lemma TornChannels(s: State, u: State, id: Uuid, order: seq<Uuid>)
    requires u == s.(channels := Torn(s.channels, id, Elements(order)), outbox := u.outbox)
    ensures u.channels == Torn(s.channels, id, Elements(order))
  {
  }

  lemma LoopIs(s: State, id: Uuid, order: seq<Uuid>, name: string, text: string, discreet: bool)
    ensures TearAll(s, id, order, name, text, discreet) ==
            if order == [] then s
            else Tear(TearAll(s, id, order[..|order| - 1], name, text, discreet), id, order[|order| - 1], name, text,
                      discreet)
  {
    hide Tear;
  }

  lemma QuitsAre(s: State, id: Uuid, order: seq<Uuid>, text: string, discreet: bool, r: Uuid)
    requires id in s.clients
    ensures QuitsTo(s, id, order, text, discreet, r) ==
            if order == [] then []
            else
              var c := order[|order| - 1];
              QuitsTo(s, id, order[..|order| - 1], text, discreet, r)
              + if Hears(s, id, c, discreet, r) then [Quit(c, id, s.clients[id].name, text)] else []
  {
    hide Hears;
  }

  // Broken connections

  /** A read error: the client goes like in every departure, and in channels with hidden members only the agents hear of
      it. */
  lemma ErrorEffect(s: State, id: Uuid, reason: string, order: seq<Uuid>, r: Uuid)
    requires Inv(s) && id in s.clients && Legal(s, ReadError(id, reason, order))
    ensures var t := Apply(s, ReadError(id, reason, order));
            && Becomes(s, t, s.clients - {id}, Depart(s, id).channels)
            && Box(t.outbox, r) == Box(s.outbox, r) + QuitsTo(s, id, order, reason, true, r)
  {
    DisconnectMeaning(s, id, reason, order);
    LoopMail(s, id, order, reason, true, r);
    DepartParts(s, id);
    hide Inv, Depart, TearAll, QuitsTo, Evolves, Enumerates;
  }

  /** Anything but a login ends a connection that waits for one; nobody hears of it. */
  lemma NoLoginEffect(s: State, id: Uuid, cmd: Command, x: Chance)
    requires Inv(s) && id in s.clients && s.clients[id].status == PendingAuth && Legal(s, Issue(id, cmd, x))
    requires !cmd.GuestLogin? && !cmd.AgentLogin? && !cmd.DeviceLogin?
    ensures var t := Apply(s, Issue(id, cmd, x));
            Becomes(s, t, s.clients - {id}, s.channels) && Sent(s, t, {}, [])
  {
    hide *;
    var u := Touch(s, id, x.now);
    TouchedSame(s, id, cmd, x);
    HandleIs(u, id, cmd, x);
    NoChannels(s, id, cmd, x);
    LoneDisconnect(s, id, x.now, "bad request pre-auth");
  }

  lemma NoChannels(s: State, id: Uuid, cmd: Command, x: Chance)
    requires Inv(s) && id in s.clients && s.clients[id].status == PendingAuth && Legal(s, Issue(id, cmd, x))
    ensures x.own == []
  {
    StandingAt(s, id);
    assert s.clients[id].channels == {};
    assert Enumerates(x.own, s.clients[id].channels);
    hide *;
    NothingListed(x.own, s.clients[id].channels);
  }

  lemma NothingListed(order: seq<Uuid>, all: set<Uuid>)
    requires Enumerates(order, all)
    ensures all == {} ==> order == []
  {
    assert order != [] ==> order[0] in all;
  }

  lemma LoneDisconnect(s: State, id: Uuid, now: Time, reason: string)
    requires id in s.clients
    ensures var t := Disconnect(Touch(s, id, now), id, reason, []);
            Becomes(s, t, s.clients - {id}, s.channels) && Sent(s, t, {}, [])
  {
    assert Touch(s, id, now).clients - {id} == s.clients - {id};
  }

  // Kills

  /** A permitted kill: the Quits, the victim's own message, and the notice to the agents that are connected and stay.
      */
  function KillMail(s: State, actor: Uuid, target: Uuid, order: seq<Uuid>, why: string, r: Uuid): seq<Msg>
    requires actor in s.clients && target in s.clients
  {
    var victim := s.clients[target];
    QuitsTo(s, target, order, "Killed (" + why + ")", false, r)
    + (if r == target then [Trouble(KickedFromServer)] else [])
    + (if r != target && r in s.clients && s.clients[r].kind == Agent && s.clients[r].status == Connected then
         [KillNotice(s.clients[actor].name, victim.name, victim.ip, why)]
       else [])
  }

  /** The text of a kill has its brackets escaped, and is never empty. */
  function Given(reason: string): string {
    if reason == "" then "no reason was provided." else T.EscapeOnce(reason)
  }

  lemma GivenIs(reason: string)
    ensures KillReason(reason) == Given(reason)
    ensures |T.Escape(reason)| == |reason| + 3 * T.Brackets(reason)
    ensures T.BracketFree(Given(reason)) && Given(reason) != ""
  {
    T.EscapeMeaning(reason);
    assert T.Brackets("") == 0;
    assert T.Escape(reason) == "" <==> reason == "";
    hide T.Escape, T.EscapeOnce, T.Brackets;
  }

  lemma KillBoxes(s: State, actor: Uuid, target: Uuid, reason: string, order: seq<Uuid>, r: Uuid)
    requires Inv(s) && actor in s.clients && MayKill(s, actor, target, reason)
    ensures target in s.clients
    ensures Box(Kill(s, actor, target, reason, order).outbox, r) ==
            Box(s.outbox, r) + KillMail(s, actor, target, order, Given(reason), r)
  {
    var victim, why := s.clients[target], KillReason(reason);
    var said := "Killed (" + why + ")";
    var s1 := TearAll(s, target, order, victim.name, said, false);
    var s2 := Cast(s1, {target}, Trouble(KickedFromServer));
    var s3 := DropClient(s2, target);
    var m := KillNotice(s.clients[actor].name, victim.name, victim.ip, why);
    assert Kill(s, actor, target, reason, order) == Cast(s3, WallopTo(s3), m);
    GivenIs(reason);
    TearAllTorn(s, target, order, victim.name, said, false);
    assert s3.clients == s.clients - {target} && s3.outbox == s2.outbox;
    assert r in WallopTo(s3) <==>
      r != target && r in s.clients && s.clients[r].kind == Agent && s.clients[r].status == Connected;
    hide *;
    LoopMail(s, target, order, said, false, r);
    CastBox(s1, {target}, Trouble(KickedFromServer), r);
    CastBox(s3, WallopTo(s3), m, r);
    KillMailIs(s, actor, target, order, why, r);
    Regroup(Box(s.outbox, r), QuitsTo(s, target, order, said, false, r),
            if r == target then [Trouble(KickedFromServer)] else [], if r in WallopTo(s3) then [m] else []);
  }

  lemma KillMailIs(s: State, actor: Uuid, target: Uuid, order: seq<Uuid>, why: string, r: Uuid)
    requires actor in s.clients && target in s.clients
    ensures var victim := s.clients[target];
            KillMail(s, actor, target, order, why, r) ==
              QuitsTo(s, target, order, "Killed (" + why + ")", false, r)
              + (if r == target then [Trouble(KickedFromServer)] else [])
              + (if r != target && r in s.clients && s.clients[r].kind == Agent && s.clients[r].status == Connected then
                   [KillNotice(s.clients[actor].name, victim.name, victim.ip, why)]
                 else [])
  {
    hide QuitsTo;
  }

  /** A kill: who may, who goes, and who is told what. Only agents may, Admins are safe, and the text may have 255
      characters, where each bracket counts for four. */
  lemma KillEffect(s: State, id: Uuid, x: Chance, target: Uuid, reason: string, r: Uuid)
    requires Inv(s) && Sender(s, id) && Legal(s, Issue(id, KillClient(target, reason), x))
    ensures var t := Apply(s, Issue(id, KillClient(target, reason), x));
            if s.clients[id].kind != Agent then Refused(s, t, id, x.now, PermissionDenied)
            else if target !in s.clients then Refused(s, t, id, x.now, NameInvalid)
            else if Admin in s.clients[target].options then Refused(s, t, id, x.now, PermissionDenied)
            else if |reason| + 3 * T.Brackets(reason) > 255 then Refused(s, t, id, x.now, InvalidArgument)
            else
              && Becomes(s, t, Stamped(s, id, x.now) - {target}, Depart(s, target).channels)
              && Box(t.outbox, r) == Box(s.outbox, r) + KillMail(s, id, target, x.order, Given(reason), r)
  {
    hide *;
    SenderIs(s, id);
    var u, cmd := Touch(s, id, x.now), KillClient(target, reason);
    TouchedSame(s, id, cmd, x);
    HandleIs(u, id, cmd, x);
    TellRefuses(s, id, x.now);
    TouchKeeps(s, id, x.now);
    LegalAfterTouch(s, id, cmd, x);
    CommandChoices(u, id, cmd, x);
    GivenIs(reason);
    KillIs(s, u, id, x.now, target, reason, x.order);
    if MayKill(u, id, target, reason) {
      KillMeaning(u, id, target, reason, x.order);
      KillBoxes(u, id, target, reason, x.order, r);
      TouchAlike(s, id, x.now);
      AlikeKillMail(s, u, id, target, x.order, Given(reason), r);
      DepartedStamped(s, id, x.now, target, Kill(u, id, target, reason, x.order));
    }
  }

  lemma KillIs(s: State, u: State, id: Uuid, now: Time, target: Uuid, reason: string, order: seq<Uuid>)
    requires id in s.clients && u == Touch(s, id, now)
    ensures MayKill(u, id, target, reason) <==>
            && s.clients[id].kind == Agent && target in s.clients && Admin !in s.clients[target].options
            && |T.Escape(reason)| <= 255
    ensures !MayKill(u, id, target, reason) ==>
            Kill(u, id, target, reason, order) ==
              if s.clients[id].kind != Agent then Tell(u, id, PermissionDenied)
              else if target !in s.clients then Tell(u, id, NameInvalid)
              else if Admin in s.clients[target].options then Tell(u, id, PermissionDenied)
              else Tell(u, id, InvalidArgument)
  {
    hide T.Escape, Tell;
  }

  lemma DepartedStamped(s: State, id: Uuid, now: Time, target: Uuid, t: State)
    requires id in s.clients && target in s.clients
    requires t == Depart(Touch(s, id, now), target).(outbox := t.outbox)
    ensures Becomes(s, t, Stamped(s, id, now) - {target}, Depart(s, target).channels)
  {
  }

  /** The states differ in nothing that decides who hears what. */
  ghost predicate Alike(s: State, u: State) {
    u.channels == s.channels && u.clients.Keys == s.clients.Keys
    && forall k :: k in s.clients ==> Clone(u.clients[k]) == Clone(s.clients[k])
  }

  lemma AlikeGone(s: State, u: State, gone: set<Uuid>)
    requires Alike(s, u) && forall k :: k in s.clients ==> u.clients[k].channels == s.clients[k].channels
    ensures DepartAll(u, gone) == DepartAll(s, gone)
  {
    forall c | c in s.channels ensures Abandoned(u, c, gone) <==> Abandoned(s, c, gone) {
      forall k | k in s.clients ensures k in u.clients && u.clients[k].channels == s.clients[k].channels {
      }
    }
  }

  lemma {:induction false} AlikeQuits(s: State, u: State, id: Uuid, order: seq<Uuid>, text: string, discreet: bool,
                                      r: Uuid)
    requires Alike(s, u) && id in s.clients
    ensures id in u.clients && QuitsTo(u, id, order, text, discreet, r) == QuitsTo(s, id, order, text, discreet, r)
  {
    if order != [] {
      AlikeQuits(s, u, id, order[..|order| - 1], text, discreet, r);
      assert IsAgent(u.clients, r) <==> IsAgent(s.clients, r);
      assert Hears(u, id, order[|order| - 1], discreet, r) <==> Hears(s, id, order[|order| - 1], discreet, r);
      hide Hears;
    }
  }

  lemma TouchAlike(s: State, id: Uuid, now: Time)
    requires id in s.clients
    ensures var u := Touch(s, id, now);
            Alike(s, u) && forall k :: k in s.clients ==> k in u.clients && u.clients[k].status == s.clients[k].status
  {
  }

  lemma AlikeKillMail(s: State, u: State, actor: Uuid, target: Uuid, order: seq<Uuid>, why: string, r: Uuid)
    requires Alike(s, u) && actor in s.clients && target in s.clients
    requires forall k :: k in s.clients ==> k in u.clients && u.clients[k].status == s.clients[k].status
    ensures actor in u.clients && target in u.clients
    ensures KillMail(u, actor, target, order, why, r) == KillMail(s, actor, target, order, why, r)
  {
    AlikeQuits(s, u, target, order, "Killed (" + why + ")", false, r);
    assert forall k :: k in s.clients ==> Clone(u.clients[k]) == Clone(s.clients[k]);
    hide QuitsTo;
  }

  // Several departures one after the other

  /** The departures of all these clients did not change what the others hear. */
  lemma SameHearing(s: State, u: State, gone: set<Uuid>, id: Uuid, c: Uuid, discreet: bool, r: Uuid)
    requires Inv(s) && Inv(u) && Evolves(Left(gone), s, u) && u.clients == s.clients - gone
    ensures Hears(u, id, c, discreet, r) <==> r !in gone && Hears(s, id, c, discreet, r)
  {
    hide Inv, TextsKept, AddressesKept, PingsKept, ClientsEvolve;
    if c in s.channels {
      MembersIssued(s, c);
    }
    if c in u.channels {
      MembersIssued(u, c);
      assert SameChannel(Left(gone), c, s.channels[c], u.channels[c]);
      assert r in u.channels[c].members <==> r in u.channels[c].members.Keys;
      assert r in s.channels[c].members <==> r in s.channels[c].members.Keys;
    } else if c in s.channels {
      assert Dropped(Left(gone), c, s.channels[c]);
      assert r in s.channels[c].members <==> r in s.channels[c].members.Keys;
    }
  }

  lemma {:induction false} LaterQuits(s: State, u: State, gone: set<Uuid>, id: Uuid, order: seq<Uuid>, text: string,
                                      discreet: bool, r: Uuid)
    requires Inv(s) && Inv(u) && Evolves(Left(gone), s, u) && u.clients == s.clients - gone
    requires id in s.clients && id !in gone
    ensures id in u.clients
    ensures QuitsTo(u, id, order, text, discreet, r) ==
            if r in gone then [] else QuitsTo(s, id, order, text, discreet, r)
  {
    hide *;
    QuitsAre(s, id, order, text, discreet, r);
    QuitsAre(u, id, order, text, discreet, r);
    if order != [] {
      LaterQuits(s, u, gone, id, order[..|order| - 1], text, discreet, r);
      SameHearing(s, u, gone, id, order[|order| - 1], discreet, r);
    }
  }

  /** The channels when all these clients are gone, in whatever order they went: those that are left empty disappear,
      unless they persist or nobody among the clients had them in its list. */
  function DepartAll(s: State, gone: set<Uuid>): Channels {
    map c | c in s.channels && !Abandoned(s, c, gone) :: s.channels[c].(members := s.channels[c].members - gone)
  }

  predicate Abandoned(s: State, c: Uuid, gone: set<Uuid>)
    requires c in s.channels
  {
    && M.Persist !in s.channels[c].options && s.channels[c].members.Keys <= gone
    && exists k :: k in gone && k in s.clients && c in s.clients[k].channels
  }

  lemma NobodyGone(s: State)
    ensures DepartAll(s, {}) == s.channels
  {
    forall c | c in s.channels ensures s.channels[c].(members := s.channels[c].members - {}) == s.channels[c] {
      assert s.channels[c].members - {} == s.channels[c].members;
    }
  }

  /** One more departure. */
  lemma OneMoreGone(s: State, u: State, gone: set<Uuid>, k: Uuid)
    requires Inv(s) && u.channels == DepartAll(s, gone) && u.clients == s.clients - gone
    requires k in s.clients && k !in gone
    ensures Depart(u, k).channels == DepartAll(s, gone + {k})
  {
    hide *;
    var one, all := Depart(u, k).channels, DepartAll(s, gone + {k});
    MemberIsListed(s, k);
    forall c ensures c in one <==> c in all
             ensures c in one ==> one[c] == all[c]
    {
      DepartAt(u, k, c);
      DepartAllAt(s, gone, c);
      DepartAllAt(s, gone + {k}, c);
      if c in s.channels {
        GoneFrom(s, u, gone, k, c);
      }
    }
    SameChannelMaps(one, all);
  }

  lemma SameChannelMaps(a: Channels, b: Channels)
    requires forall c :: (c in a <==> c in b) && (c in a ==> a[c] == b[c])
    ensures a == b
  {
  }

  lemma DepartAt(u: State, k: Uuid, c: Uuid)
    requires k in u.clients
    ensures c in Depart(u, k).channels <==>
            c in u.channels && !(c in u.clients[k].channels && Dies(u.channels[c], k))
    ensures c in Depart(u, k).channels ==>
            Depart(u, k).channels[c] == u.channels[c].(members := u.channels[c].members - {k})
  {
  }

  lemma DepartAllAt(s: State, gone: set<Uuid>, c: Uuid)
    ensures c in DepartAll(s, gone) <==> c in s.channels && !Abandoned(s, c, gone)
    ensures c in DepartAll(s, gone) ==>
            DepartAll(s, gone)[c] == s.channels[c].(members := s.channels[c].members - gone)
  {
  }

  lemma GoneFrom(s: State, u: State, gone: set<Uuid>, k: Uuid, c: Uuid)
    requires u.channels == DepartAll(s, gone) && u.clients == s.clients - gone
    requires k in s.clients && k !in gone && c in s.channels
    requires k in s.channels[c].members ==> c in s.clients[k].channels
    ensures Abandoned(s, c, gone + {k}) <==>
            Abandoned(s, c, gone) || (c in u.clients[k].channels && Dies(u.channels[c], k))
    ensures s.channels[c].members - gone - {k} == s.channels[c].members - (gone + {k})
  {
    var ms := s.channels[c].members;
    assert (ms - gone).Keys == ms.Keys - gone;
    if c in s.clients[k].channels && M.Persist !in s.channels[c].options && ms.Keys <= gone + {k} {
      assert k in gone + {k};
    }
  }

  lemma {:induction false} PurgedChannels(s: State, plan: seq<Victim>)
    requires Inv(s) && PlanFits(s, plan)
    ensures PurgeAll(s, plan).channels == DepartAll(s, Others(plan))
  {
    hide *;
    PurgesAre(s, plan, NIL);
    NobodyGone(s);
    NoOthers(plan);
    if plan != [] {
      var n, v, u := |plan| - 1, plan[|plan| - 1], PurgeAll(s, plan[..|plan| - 1]);
      PlanPrefix(s, plan);
      PurgedChannels(s, plan[..n]);
      PurgeAllKeeps(s, plan[..n]);
      NotYetGone(s, plan);
      OthersSnoc(plan);
      PlanRest(s, u, plan);
      PurgeMeaning(u, v.id, v.order);
      DepartParts(u, v.id);
      OneMoreGone(s, u, Others(plan[..n]), v.id);
    }
  }

  lemma NoOthers(plan: seq<Victim>)
    ensures plan == [] ==> Others(plan) == {}
  {
  }

  lemma {:induction false} KilledChannels(s: State, actor: Uuid, plan: seq<Victim>, why: string)
    requires Inv(s) && actor in s.clients && s.clients[actor].kind == Agent
    requires PlanFits(s, plan) && actor !in Others(plan)
    ensures KillAll(s, actor, plan, why).channels == DepartAll(s, KilledOf(s, plan, why))
  {
    hide *;
    KillsAre(s, actor, plan, why);
    NobodyGone(s);
    NoOthers(plan);
    OnlyTargetsGo(s, plan, why);
    if plan != [] {
      var n, v, u := |plan| - 1, plan[|plan| - 1], KillAll(s, actor, plan[..|plan| - 1], why);
      var gone := KilledOf(s, plan[..n], why);
      PlanPrefix(s, plan);
      OthersSnoc(plan);
      KilledChannels(s, actor, plan[..n], why);
      KillAllKeeps(s, actor, plan[..n], why);
      KilledSnoc(s, u, actor, plan, why);
      OnlyTargetsGo(s, plan[..n], why);
      NotYetGone(s, plan);
      SameVictim(s, plan);
      KillMeaning(u, actor, v.id, why, v.order);
      DepartParts(u, v.id);
      OneMoreGone(s, u, gone, v.id);
      assert gone + {} == gone;
    } else {
      assert KilledOf(s, plan, why) == {};
    }
  }

  lemma SameVictim(s: State, plan: seq<Victim>)
    requires PlanFits(s, plan) && plan != []
    ensures var v := plan[|plan| - 1]; v.id in s.clients && Enumerates(v.order, s.clients[v.id].channels)
  {
    hide Enumerates;
  }

  // The health check

  /** What `r` hears of clients that are purged one after the other: once it is gone itself, nothing. */
  function PurgeMail(s: State, plan: seq<Victim>, r: Uuid): seq<Msg> {
    if plan == [] then []
    else
      var n := |plan| - 1;
      PurgeMail(s, plan[..n], r)
      + if plan[n].id !in s.clients || exists i :: 0 <= i < n && plan[i].id == r then []
        else QuitsTo(s, plan[n].id, plan[n].order, "ping timeout: 180 seconds", false, r)
  }

  lemma {:induction false} PurgeBoxes(s: State, plan: seq<Victim>, r: Uuid)
    requires Inv(s) && PlanFits(s, plan)
    ensures Box(PurgeAll(s, plan).outbox, r) == Box(s.outbox, r) + PurgeMail(s, plan, r)
  {
    hide *;
    PurgesAre(s, plan, r);
    if plan != [] {
      var n, v, u := |plan| - 1, plan[|plan| - 1], PurgeAll(s, plan[..|plan| - 1]);
      PlanPrefix(s, plan);
      PurgeBoxes(s, plan[..n], r);
      PurgeAllKeeps(s, plan[..n]);
      NotYetGone(s, plan);
      LoopMail(u, v.id, v.order, "ping timeout: 180 seconds", false, r);
      LaterQuits(s, u, Others(plan[..n]), v.id, v.order, "ping timeout: 180 seconds", false, r);
      PurgeIs(u, v.id, v.order, r);
      Regroup(Box(s.outbox, r), PurgeMail(s, plan[..n], r),
              if r in Others(plan[..n]) then []
              else QuitsTo(s, v.id, v.order, "ping timeout: 180 seconds", false, r), []);
    }
  }

  lemma PurgesAre(s: State, plan: seq<Victim>, r: Uuid)
    ensures PurgeAll(s, plan) ==
            if plan == [] then s
            else Purge(PurgeAll(s, plan[..|plan| - 1]), plan[|plan| - 1].id, plan[|plan| - 1].order)
    ensures PurgeMail(s, plan, r) ==
            if plan == [] then []
            else
              var n := |plan| - 1;
              PurgeMail(s, plan[..n], r)
              + if plan[n].id !in s.clients || r in Others(plan[..n]) then []
                else QuitsTo(s, plan[n].id, plan[n].order, "ping timeout: 180 seconds", false, r)
  {
    if plan != [] {
      var n := |plan| - 1;
      assert r in Others(plan[..n]) <==> exists i :: 0 <= i < n && plan[i].id == r by {
        if i :| 0 <= i < n && plan[i].id == r {
          assert plan[..n][i].id == r;
        }
      }
    }
    hide Purge, QuitsTo, Others;
  }

  lemma PlanPrefix(s: State, plan: seq<Victim>)
    requires PlanFits(s, plan) && plan != []
    ensures PlanFits(s, plan[..|plan| - 1])
  {
    hide Enumerates;
  }

  lemma NotYetGone(s: State, plan: seq<Victim>)
    requires PlanFits(s, plan) && plan != []
    ensures plan[|plan| - 1].id in s.clients && plan[|plan| - 1].id !in Others(plan[..|plan| - 1])
  {
    hide Enumerates;
  }

  lemma PurgeIs(s: State, id: Uuid, order: seq<Uuid>, r: Uuid)
    requires id in s.clients
    ensures Box(Purge(s, id, order).outbox, r) ==
            Box(TearAll(s, id, order, s.clients[id].name, "ping timeout: 180 seconds", false).outbox, r)
  {
    hide TearAll;
  }

  /** A health check. Who sent no command and got no ping for a minute is idle; an idle client whose last command is
      more than three minutes old goes, and is told so first; any other idle client whose last command is more than a
      minute old is sent a ping. Then everybody hears of the purged ones, in the order of the purges, as long as it
      stays. */
  lemma CheckEffect(s: State, now: Time, plan: seq<Victim>, r: Uuid)
    requires Inv(s) && Legal(s, Check(now, plan))
    ensures var t := Apply(s, Check(now, plan));
            && Becomes(s, t, t.clients, DepartAll(s, s.clients.Keys - t.clients.Keys))
            && (r in t.clients <==>
                  r in s.clients
                  && !(s.clients[r].lastAction < now - 60 * SECOND && s.clients[r].lastPing < now - 180 * SECOND))
            && (r in t.clients ==>
                  t.clients[r] ==
                  if s.clients[r].lastAction < now - 60 * SECOND && s.clients[r].lastPing < now - 60 * SECOND
                  then s.clients[r].(lastAction := now) else s.clients[r])
            && Box(t.outbox, r) ==
               Box(s.outbox, r)
               + (if r !in s.clients || s.clients[r].lastAction >= now - 60 * SECOND
                     || s.clients[r].lastPing >= now - 60 * SECOND then []
                  else if s.clients[r].lastPing < now - 180 * SECOND then [PingTimeout] else [Ping(now)])
               + PurgeMail(s, plan, r)
  {
    hide *;
    var u := Inspect(s, now);
    CheckIs(s, now, plan);
    CheckKeeps(s, now, plan);
    InspectKeeps(s, now);
    PlansFit(s, ExpiredIn(s, now), plan);
    FitsAfterInspect(s, u, now, plan);
    PurgeBoxes(u, plan, r);
    PurgeAllKeeps(u, plan);
    PurgedChannels(u, plan);
    CheckedGone(s, u, now);
    InspectBoxes(s, now, r);
    CheckedAlike(s, u, now);
    AlikePurgeMail(s, u, plan, r);
    CheckedRecord(s, now, r);
    var t := Apply(s, Check(now, plan));
    ConfKept(DeltaOf(s, Check(now, plan)), s, t);
    BecomesIs(s, t, t.clients, DepartAll(s, s.clients.Keys - t.clients.Keys));
  }

  lemma CheckIs(s: State, now: Time, plan: seq<Victim>)
    ensures Apply(s, Check(now, plan)) == PurgeAll(Inspect(s, now), plan)
    ensures Legal(s, Check(now, plan)) ==> ClockOk(s, now) && Plans(s, ExpiredIn(s, now), plan)
  {
    hide PurgeAll, Inspect, ClockOk, Plans, ExpiredIn;
  }

  lemma InspectBoxes(s: State, now: Time, r: Uuid)
    ensures Box(Inspect(s, now).outbox, r) ==
            Box(s.outbox, r)
            + if r !in s.clients || s.clients[r].lastAction >= now - 60 * SECOND
                 || s.clients[r].lastPing >= now - 60 * SECOND then []
              else if s.clients[r].lastPing < now - 180 * SECOND then [PingTimeout] else [Ping(now)]
  {
    hide Checked;
  }

  lemma CheckedGone(s: State, u: State, now: Time)
    requires u.channels == s.channels && u.clients == CheckAll(s.clients, now)
    ensures DepartAll(u, ExpiredIn(s, now)) == DepartAll(s, ExpiredIn(s, now))
    ensures s.clients.Keys - (CheckAll(s.clients, now) - ExpiredIn(s, now)).Keys == ExpiredIn(s, now)
  {
    CheckedAlike(s, u, now);
    hide ExpiredIn, CheckAll;
    AlikeGone(s, u, ExpiredIn(s, now));
    assert ExpiredIn(s, now) <= s.clients.Keys by { ExpiredAreClients(s, now); }
    assert u.clients.Keys == s.clients.Keys;
    assert (u.clients - ExpiredIn(s, now)).Keys == s.clients.Keys - ExpiredIn(s, now);
  }

  lemma ExpiredAreClients(s: State, now: Time)
    ensures ExpiredIn(s, now) <= s.clients.Keys
  {
  }

  lemma CheckedRecord(s: State, now: Time, r: Uuid)
    ensures var after := CheckAll(s.clients, now) - ExpiredIn(s, now);
            && (r in after <==>
                  r in s.clients
                  && !(s.clients[r].lastAction < now - 60 * SECOND && s.clients[r].lastPing < now - 180 * SECOND))
            && (r in after ==>
                  after[r] ==
                  if s.clients[r].lastAction < now - 60 * SECOND && s.clients[r].lastPing < now - 60 * SECOND
                  then s.clients[r].(lastAction := now) else s.clients[r])
  {
  }

  lemma CheckedAlike(s: State, u: State, now: Time)
    requires u.channels == s.channels && u.clients == CheckAll(s.clients, now)
    ensures Alike(s, u)
  {
  }

  lemma {:induction false} AlikePurgeMail(s: State, u: State, plan: seq<Victim>, r: Uuid)
    requires Alike(s, u)
    ensures PurgeMail(u, plan, r) == PurgeMail(s, plan, r)
  {
    if plan != [] {
      var v := plan[|plan| - 1];
      AlikePurgeMail(s, u, plan[..|plan| - 1], r);
      if v.id in s.clients {
        AlikeQuits(s, u, v.id, v.order, "ping timeout: 180 seconds", false, r);
      }
    }
    hide QuitsTo;
  }

  // Bans

  /** What `r` is sent when a ban reaches one of its targets. The agent who ordered it is told if that is an Admin, or
      if the text is too long; a client that is gone hears nothing more. */
  function BanTurn(s: State, actor: Uuid, v: Victim, gone: bool, why: string, r: Uuid): seq<Msg>
    requires actor in s.clients && v.id in s.clients
  {
    if Admin in s.clients[v.id].options then (if r == actor then [Trouble(PermissionDenied)] else [])
    else if |why| + 3 * T.Brackets(why) > 255 then (if r == actor then [Trouble(InvalidArgument)] else [])
    else if gone then []
    else KillMail(s, actor, v.id, v.order, Given(why), r)
  }

  /** The same for the targets one after the other; those who are no Admins go. */
  function BanMail(s: State, actor: Uuid, plan: seq<Victim>, why: string, r: Uuid): seq<Msg>
    requires actor in s.clients
  {
    if plan == [] then []
    else
      var n := |plan| - 1;
      var gone := r in s.clients && Admin !in s.clients[r].options && exists i :: 0 <= i < n && plan[i].id == r;
      BanMail(s, actor, plan[..n], why, r)
      + if plan[n].id in s.clients then BanTurn(s, actor, plan[n], gone, why, r) else []
  }

  lemma BanMailIs(s: State, actor: Uuid, plan: seq<Victim>, why: string, r: Uuid)
    requires actor in s.clients
    ensures BanMail(s, actor, plan, why, r) ==
            if plan == [] then []
            else
              var n := |plan| - 1;
              BanMail(s, actor, plan[..n], why, r)
              + if plan[n].id in s.clients
                then BanTurn(s, actor, plan[n], r in KilledOf(s, plan[..n], why), why, r) else []
  {
    GivenIs(why);
    if plan != [] {
      var n := |plan| - 1;
      assert r in Others(plan[..n]) <==> exists i :: 0 <= i < n && plan[i].id == r by {
        if i :| 0 <= i < n && plan[i].id == r {
          assert plan[..n][i].id == r;
        }
      }
    }
    hide KillMail, T.Escape, T.Brackets, Given, Others;
  }

  lemma KillsAre(s: State, actor: Uuid, plan: seq<Victim>, reason: string)
    ensures KillAll(s, actor, plan, reason) ==
            if plan == [] then s
            else
              var u, v := KillAll(s, actor, plan[..|plan| - 1], reason), plan[|plan| - 1];
              if actor in u.clients then Kill(u, actor, v.id, reason, v.order) else u
  {
    hide Kill;
  }

  lemma LaterKillMail(s: State, u: State, gone: set<Uuid>, actor: Uuid, k: Uuid, order: seq<Uuid>, why: string, r: Uuid)
    requires Inv(s) && Inv(u) && Evolves(Left(gone), s, u) && u.clients == s.clients - gone
    requires actor in s.clients && actor !in gone && k in s.clients && k !in gone
    ensures actor in u.clients && k in u.clients
    ensures KillMail(u, actor, k, order, why, r) == if r in gone then [] else KillMail(s, actor, k, order, why, r)
  {
    LaterQuits(s, u, gone, k, order, "Killed (" + why + ")", false, r);
    hide Inv, Evolves, QuitsTo;
  }

  lemma TurnBoxes(s: State, u: State, gone: set<Uuid>, actor: Uuid, v: Victim, why: string, r: Uuid)
    requires Inv(s) && Inv(u) && Evolves(Left(gone), s, u) && u.clients == s.clients - gone
    requires actor in s.clients && s.clients[actor].kind == Agent && actor !in gone && v.id in s.clients
             && v.id !in gone
    ensures actor in u.clients
    ensures Box(Kill(u, actor, v.id, why, v.order).outbox, r) ==
            Box(u.outbox, r) + BanTurn(s, actor, v, r in gone, why, r)
  {
    hide *;
    GivenIs(why);
    TurnIs(s, u, gone, actor, v, why, r in gone, r);
    if MayKill(u, actor, v.id, why) {
      KillBoxes(u, actor, v.id, why, v.order, r);
      LaterKillMail(s, u, gone, actor, v.id, v.order, Given(why), r);
    }
  }

  lemma TurnIs(s: State, u: State, gone: set<Uuid>, actor: Uuid, v: Victim, why: string, left: bool, r: Uuid)
    requires u.clients == s.clients - gone
    requires actor in s.clients && s.clients[actor].kind == Agent && actor !in gone && v.id in s.clients
             && v.id !in gone
    ensures actor in u.clients
    ensures MayKill(u, actor, v.id, why) <==> Admin !in s.clients[v.id].options && |T.Escape(why)| <= 255
    ensures !MayKill(u, actor, v.id, why) ==>
            Box(Kill(u, actor, v.id, why, v.order).outbox, r) ==
            Box(u.outbox, r) + BanTurn(s, actor, v, left, why, r)
    ensures MayKill(u, actor, v.id, why) ==>
            BanTurn(s, actor, v, left, why, r) ==
            if left then [] else KillMail(s, actor, v.id, v.order, Given(why), r)
  {
    GivenIs(why);
    hide T.Escape, T.Brackets, Given, KillMail, TearAll;
  }

  lemma {:induction false} BanBoxes(s: State, actor: Uuid, plan: seq<Victim>, why: string, r: Uuid)
    requires Inv(s) && actor in s.clients && s.clients[actor].kind == Agent
    requires PlanFits(s, plan) && actor !in Others(plan)
    ensures Box(KillAll(s, actor, plan, why).outbox, r) == Box(s.outbox, r) + BanMail(s, actor, plan, why, r)
  {
    hide *;
    KillsAre(s, actor, plan, why);
    BanMailIs(s, actor, plan, why, r);
    if plan != [] {
      var n, v, u := |plan| - 1, plan[|plan| - 1], KillAll(s, actor, plan[..|plan| - 1], why);
      var gone := KilledOf(s, plan[..n], why);
      PlanPrefix(s, plan);
      OthersSnoc(plan);
      BanBoxes(s, actor, plan[..n], why, r);
      KillAllKeeps(s, actor, plan[..n], why);
      NotYetGone(s, plan);
      OnlyTargetsGo(s, plan[..n], why);
      TurnBoxes(s, u, gone, actor, v, why, r);
      Regroup(Box(s.outbox, r), BanMail(s, actor, plan[..n], why, r), BanTurn(s, actor, v, r in gone, why, r), []);
    }
  }

  lemma OnlyTargetsGo(s: State, plan: seq<Victim>, why: string)
    ensures KilledOf(s, plan, why) <= Others(plan)
  {
    hide T.Escape;
  }

  lemma {:induction false} PlanSize(s: State, plan: seq<Victim>)
    requires PlanFits(s, plan)
    ensures |plan| == |Others(plan)|
  {
    if plan == [] {
      assert Others(plan) == {};
    } else {
      PlanPrefix(s, plan);
      PlanSize(s, plan[..|plan| - 1]);
      OthersSnoc(plan);
      NotYetGone(s, plan);
    }
  }

  /** The clients that a ban is aimed at. */
  function Aimed(s: State, ip: Ip): set<Uuid> {
    set k | k in s.clients && s.clients[k].ip == ip && s.clients[k].kind != Agent
  }

  /** Those among them who go, if the text of the kills is short enough. */
  function Condemned(s: State, ip: Ip, why: string): set<Uuid> {
    set k | k in Aimed(s, ip) && Admin !in s.clients[k].options && |why| + 3 * T.Brackets(why) <= 255
  }

  /** A ban: who may, what is entered, who goes, and who is told what. It reaches everybody at the address who is no
      agent; of these, all but the Admins go, unless the text, in which each bracket counts for four, is too long. */
  lemma BanEffect(s: State, id: Uuid, x: Chance, ip: Ip, reason: string, r: Uuid)
    requires Inv(s) && Sender(s, id) && Legal(s, Issue(id, BanIp(ip, reason), x))
    ensures var t := Apply(s, Issue(id, BanIp(ip, reason), x));
            var why := "Banned (" + reason + ")";
            if s.clients[id].kind != Agent then Refused(s, t, id, x.now, PermissionDenied)
            else if exists i :: 0 <= i < |s.bans| && s.bans[i].ip == ip then Refused(s, t, id, x.now, AlreadyMember)
            else
              var gone := Condemned(s, ip, why);
              var notice := BanNotice(s.clients[id].name, ip, |Aimed(s, ip)|, why);
              && t == State(s.conf, Stamped(s, id, x.now) - gone, DepartAll(s, gone),
                            s.bans + [Ban(ip, reason, s.clients[id].name)], t.outbox, s.issued)
              && (forall k :: (exists i :: 0 <= i < |x.plan| && x.plan[i].id == k) <==> k in Aimed(s, ip))
              && Box(t.outbox, r) ==
                 Box(s.outbox, r)
                 + (if r in s.clients && s.clients[r].kind == Agent && s.clients[r].status == Connected then [notice]
                    else [])
                 + BanMail(s, id, x.plan, why, r)
  {
    hide *;
    SenderIs(s, id);
    var u, cmd := Touch(s, id, x.now), BanIp(ip, reason);
    TouchedSame(s, id, cmd, x);
    HandleIs(u, id, cmd, x);
    TellRefuses(s, id, x.now);
    TouchKeeps(s, id, x.now);
    LegalAfterTouch(s, id, cmd, x);
    CommandChoices(u, id, cmd, x);
    BanIs(s, id, x.now, ip, reason, x.plan);
    if s.clients[id].kind == Agent && !exists i :: 0 <= i < |s.bans| && s.bans[i].ip == ip {
      BanPermitted(s, id, x.now, ip, reason, x.plan, r);
    }
  }

  lemma BanIs(s: State, id: Uuid, now: Time, ip: Ip, reason: string, plan: seq<Victim>)
    requires id in s.clients
    ensures var u := Touch(s, id, now);
            Kline(u, id, ip, reason, plan) ==
              if s.clients[id].kind != Agent then Tell(u, id, PermissionDenied)
              else if exists i :: 0 <= i < |s.bans| && s.bans[i].ip == ip then Tell(u, id, AlreadyMember)
              else BanDone(s, id, now, ip, reason, plan)
  {
    hide Tell, KillAll, Deliver, WallopTo;
  }

  /** What a permitted ban does. */
  function BanDone(s: State, id: Uuid, now: Time, ip: Ip, reason: string, plan: seq<Victim>): State
    requires id in s.clients
  {
    KillAll(BanEntered(s, id, now, ip, reason, plan), id, plan, BanReason(reason))
  }

  function BanEntered(s: State, id: Uuid, now: Time, ip: Ip, reason: string, plan: seq<Victim>): State
    requires id in s.clients
  {
    var u, name := Touch(s, id, now), s.clients[id].name;
    var v := u.(bans := u.bans + [Ban(ip, reason, name)]);
    Cast(v, WallopTo(v), BanNotice(name, ip, |plan|, BanReason(reason)))
  }

  lemma BanEnteredKeeps(s: State, id: Uuid, now: Time, ip: Ip, reason: string, plan: seq<Victim>, r: Uuid)
    requires Inv(s) && id in s.clients
    ensures var v := BanEntered(s, id, now, ip, reason, plan);
            && Inv(v) && v.clients == Stamped(s, id, now) && v.channels == s.channels
            && v.bans == s.bans + [Ban(ip, reason, s.clients[id].name)] && v.issued == s.issued && v.conf == s.conf
            && Box(v.outbox, r) ==
               Box(s.outbox, r)
               + if r in s.clients && s.clients[r].kind == Agent && s.clients[r].status == Connected
                 then [BanNotice(s.clients[id].name, ip, |plan|, BanReason(reason))] else []
  {
    var u, name := Touch(s, id, now), s.clients[id].name;
    var v := u.(bans := u.bans + [Ban(ip, reason, name)]);
    var m := BanNotice(name, ip, |plan|, BanReason(reason));
    assert BanEntered(s, id, now, ip, reason, plan) == Cast(v, WallopTo(v), m);
    assert v.clients == Stamped(s, id, now) && v.outbox == s.outbox && v.channels == s.channels;
    assert v.issued == s.issued && v.conf == s.conf;
    assert r in WallopTo(v) <==> r in s.clients && s.clients[r].kind == Agent && s.clients[r].status == Connected;
    assert STILL.ins !! STILL.outs;
    hide *;
    TouchKeeps(s, id, now);
    BanKeeps(u, v);
    NoticePlain(m);
    WallopFine(v, m);
    Unmoved(v);
    CastOn(STILL, v, v, WallopTo(v), m);
    CastBox(v, WallopTo(v), m, r);
    CastParts(v, WallopTo(v), m);
  }

  lemma BanPermitted(s: State, id: Uuid, now: Time, ip: Ip, reason: string, plan: seq<Victim>, r: Uuid)
    requires Inv(s) && id in s.clients && s.clients[id].kind == Agent
    requires Plans(Touch(s, id, now), KlineTargets(Touch(s, id, now), ip), plan)
    ensures var t, why := BanDone(s, id, now, ip, reason, plan), "Banned (" + reason + ")";
            var gone := Condemned(s, ip, why);
            && t == State(s.conf, Stamped(s, id, now) - gone, DepartAll(s, gone),
                          s.bans + [Ban(ip, reason, s.clients[id].name)], t.outbox, s.issued)
            && (forall k :: (exists i :: 0 <= i < |plan| && plan[i].id == k) <==> k in Aimed(s, ip))
            && Box(t.outbox, r) ==
               Box(s.outbox, r)
               + (if r in s.clients && s.clients[r].kind == Agent && s.clients[r].status == Connected
                  then [BanNotice(s.clients[id].name, ip, |Aimed(s, ip)|, why)] else [])
               + BanMail(s, id, plan, why, r)
  {
    hide *;
    var v, why := BanEntered(s, id, now, ip, reason, plan), BanReason(reason);
    BanTargets(s, id, now, ip, plan);
    BanEnteredKeeps(s, id, now, ip, reason, plan, r);
    EnteredAlike(s, v, id, now);
    SamePlan(Touch(s, id, now), v, plan);
    KillAllKeeps(v, id, plan, why);
    KilledChannels(v, id, plan, why);
    ConfKept(Left(KilledOf(v, plan, why)), v, KillAll(v, id, plan, why));
    AlikeGone(s, v, KilledOf(v, plan, why));
    BanBoxes(v, id, plan, why, r);
    AlikeBanMail(s, v, id, plan, why, r);
    PlanSize(v, plan);
    CondemnedAre(s, v, id, now, ip, plan, reason);
    BanDoneIs(s, id, now, ip, reason, plan);
  }

  lemma BanDoneIs(s: State, id: Uuid, now: Time, ip: Ip, reason: string, plan: seq<Victim>)
    requires id in s.clients
    ensures BanDone(s, id, now, ip, reason, plan) ==
            KillAll(BanEntered(s, id, now, ip, reason, plan), id, plan, BanReason(reason))
    ensures BanReason(reason) == "Banned (" + reason + ")"
  {
    hide KillAll, BanEntered;
  }

  lemma BanTargets(s: State, id: Uuid, now: Time, ip: Ip, plan: seq<Victim>)
    requires id in s.clients && s.clients[id].kind == Agent
    requires Plans(Touch(s, id, now), KlineTargets(Touch(s, id, now), ip), plan)
    ensures PlanFits(Touch(s, id, now), plan) && Others(plan) == Aimed(s, ip) && id !in Others(plan)
    ensures forall k :: (exists i :: 0 <= i < |plan| && plan[i].id == k) <==> k in Aimed(s, ip)
  {
    var u := Touch(s, id, now);
    assert KlineTargets(u, ip) == Aimed(s, ip);
    PlansFit(u, KlineTargets(u, ip), plan);
    hide PlanFits, Plans, KlineTargets, Aimed, Touch;
    assert id !in Aimed(s, ip) by { NotAimed(s, id, ip); }
  }

  lemma NotAimed(s: State, id: Uuid, ip: Ip)
    requires id in s.clients && s.clients[id].kind == Agent
    ensures id !in Aimed(s, ip)
  {
  }

  lemma SamePlan(u: State, v: State, plan: seq<Victim>)
    requires PlanFits(u, plan) && v.clients == u.clients
    ensures PlanFits(v, plan)
  {
  }

  lemma EnteredAlike(s: State, v: State, id: Uuid, now: Time)
    requires id in s.clients && v.clients == Stamped(s, id, now) && v.channels == s.channels
    ensures Alike(s, v) && id in v.clients && v.clients[id].kind == s.clients[id].kind
    ensures v.clients == Touch(s, id, now).clients
    ensures forall k :: k in s.clients ==> v.clients[k].channels == s.clients[k].channels
    ensures forall k :: k in s.clients ==> k in v.clients && v.clients[k].status == s.clients[k].status
  {
  }

  lemma CondemnedAre(s: State, v: State, id: Uuid, now: Time, ip: Ip, plan: seq<Victim>, reason: string)
    requires id in s.clients && v.clients == Stamped(s, id, now) && Others(plan) == Aimed(s, ip)
    ensures var why := BanReason(reason);
            KilledOf(v, plan, why) == Condemned(s, ip, why)
  {
    GivenIs(BanReason(reason));
    hide T.Escape, T.Brackets, BanReason, Given, Others;
  }

  lemma {:induction false} AlikeBanMail(s: State, u: State, actor: Uuid, plan: seq<Victim>, why: string, r: Uuid)
    requires Alike(s, u) && actor in s.clients
    requires forall k :: k in s.clients ==> k in u.clients && u.clients[k].status == s.clients[k].status
    ensures actor in u.clients && BanMail(u, actor, plan, why, r) == BanMail(s, actor, plan, why, r)
  {
    if plan != [] {
      var n := |plan| - 1;
      AlikeBanMail(s, u, actor, plan[..n], why, r);
      assert forall k :: k in s.clients ==> Clone(u.clients[k]) == Clone(s.clients[k]);
      if plan[n].id in s.clients {
        AlikeKillMail(s, u, actor, plan[n].id, plan[n].order, Given(why), r);
      }
    }
    hide KillMail, Given, T.Brackets;
  }

  /** Whom a ban removes: exactly if an agent orders it, the address is not in the list yet and the text is short
      enough, every client with the address who is neither an agent nor an Admin. */
  lemma BanMeaning(s: State, id: Uuid, x: Chance, ip: Ip, reason: string, k: Uuid)
    requires Inv(s) && Sender(s, id) && Legal(s, Issue(id, BanIp(ip, reason), x)) && k in s.clients
    ensures k !in Apply(s, Issue(id, BanIp(ip, reason), x)).clients <==>
            && s.clients[id].kind == Agent
            && (forall i :: 0 <= i < |s.bans| ==> s.bans[i].ip != ip)
            && |T.EscapeOnce("Banned (" + reason + ")")| <= 255
            && s.clients[k].ip == ip && s.clients[k].kind != Agent && Admin !in s.clients[k].options
  {
    hide *;
    BanEffect(s, id, x, ip, reason, k);
    T.EscapeMeaning("Banned (" + reason + ")");
    SenderIs(s, id);
    StampedKeys(s, id, x.now);
    AimedIs(s, ip, "Banned (" + reason + ")", k);
    var t := Apply(s, Issue(id, BanIp(ip, reason), x));
    RefusedParts(s, t, id, x.now, PermissionDenied);
    RefusedParts(s, t, id, x.now, AlreadyMember);
  }

  lemma AimedIs(s: State, ip: Ip, why: string, k: Uuid)
    ensures k in Condemned(s, ip, why) <==>
            && k in s.clients && s.clients[k].ip == ip && s.clients[k].kind != Agent
            && Admin !in s.clients[k].options && |why| + 3 * T.Brackets(why) <= 255
  {
  }

  lemma StampedKeys(s: State, id: Uuid, now: Time)
    requires id in s.clients
    ensures Stamped(s, id, now).Keys == s.clients.Keys
  {
  }
}
