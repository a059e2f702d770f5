/** Names: lower-cased channel names are unique over runs, and so are the names of authenticated clients. */
module Naming {
  import opened Basics
  import opened Uuids
  import opened Machine
  import opened Invariants
  import opened Handlers
  import opened Steps
  import opened Runs
  import opened Collection
  import M = Modes
  import T = Text

  ghost predicate UniqueNames(channels: Channels) {
    forall a, b :: a in channels && b in channels && a != b ==> T.Lower(channels[a].name) != T.Lower(channels[b].name)
  }

  /** With unique names a lookup has one possible answer, whatever the iteration order. */
  lemma LookupIsFunction(s: State, name: string, a: Option<Uuid>, b: Option<Uuid>)
    requires UniqueNames(s.channels)
    ensures LowerLookup(s, name, a) && LowerLookup(s, name, b) ==> a == b
    ensures ExactLookup(s, name, a) && ExactLookup(s, name, b) ==> a == b
  {
  }

  /** The text of an id passes the check for channel names and is in lower case. */
  lemma IdTextIsName(u: Uuid)
    ensures T.ChannelName(UuidText(u)) && T.Lower(UuidText(u)) == UuidText(u)
  {
    var t := UuidText(u);
    forall i | 0 <= i < 36 ensures T.NameChar(t[i]) && T.LowerChar(t[i]) == t[i] {
      assert t[i] == TextAt(u, i);
    }
  }

  /** Whether a join creates a channel. */
  predicate Creates(s: State, actor: Uuid, channel: string, found: Option<Uuid>)
    requires actor in s.clients
  {
    var c := s.clients[actor];
    && (Admin in c.options || JoinChannels in c.options)
    && found.None?
    && (CreateChannels in c.options || c.kind == Agent)
    && !LooksLikeV4(channel) && T.ChannelName(channel)
  }

  lemma JoinChannelsAfter(s: State, actor: Uuid, channel: string, found: Option<Uuid>, newId: Uuid)
    requires actor in s.clients && (found.Some? ==> found.value in s.channels)
    ensures var t := JoinTo(s, actor, channel, found, newId);
            if Creates(s, actor, channel, found) then t.channels == Create(s, actor, channel, newId).channels
            else t.channels == s.channels
                 || (found.Some? && t.channels == Enter(s, actor, found.value, false).channels)
  {
    hide Enter, Create, LooksLikeV4, T.ChannelName;
  }

  ghost predicate NameFree(channels: Channels, name: string) {
    forall c :: c in channels ==> T.Lower(channels[c].name) != T.Lower(name)
  }

  /** Exactly when a join keeps the names unique: it creates nothing, or no channel has that name yet. */
  lemma JoinKeepsUnique(s: State, actor: Uuid, channel: string, found: Option<Uuid>, newId: Uuid)
    requires actor in s.clients && newId !in s.channels && UniqueNames(s.channels)
    requires found.Some? ==> found.value in s.channels
    ensures UniqueNames(JoinTo(s, actor, channel, found, newId).channels)
            <==> !Creates(s, actor, channel, found) || NameFree(s.channels, channel)
  {
    hide Enter, Create, LooksLikeV4, T.ChannelName, T.Lower, JoinTo, Creates;
    JoinChannelsAfter(s, actor, channel, found, newId);
    var t := JoinTo(s, actor, channel, found, newId);
    if Creates(s, actor, channel, found) {
      CreatedChannels(s, actor, channel, newId);
      assert t.channels[newId].name == channel;
      forall c | c in s.channels ensures c in t.channels && t.channels[c] == s.channels[c] {
      }
      if UniqueNames(t.channels) {
        forall c | c in s.channels ensures T.Lower(s.channels[c].name) != T.Lower(channel) {
          assert t.channels[c].name == s.channels[c].name;
        }
      }
    } else if found.Some? {
      EnterChannels(s, actor, found.value, false);
    }
  }

  /** A join by id creates a channel exactly if the creator may, nobody is there, and the id is not of version 4;
      so for version-4 ids, and for no others, such a join is always harmless. */
  lemma JoinByIdUnique(s: State, actor: Uuid, target: Uuid, newId: Uuid)
    requires actor in s.clients && newId !in s.channels && UniqueNames(s.channels) && target !in s.channels
    requires Admin in s.clients[actor].options || JoinChannels in s.clients[actor].options
    requires CreateChannels in s.clients[actor].options || s.clients[actor].kind == Agent
    ensures UniqueNames(JoinTo(s, actor, UuidText(target), None, newId).channels)
            <==> IsV4(target) || NameFree(s.channels, UuidText(target))
  {
    hide JoinTo, UuidText, IsV4, LooksLikeV4, T.ChannelName, UniqueNames, NameFree;
    IdTextIsName(target);
    TextLooksLikeV4(target);
    JoinKeepsUnique(s, actor, UuidText(target), None, newId);
  }

  /** The nil id is not of version 4: joined by id twice by a creator, it gives two channels of one name. */
  lemma NilMakesTwins(s: State, actor: Uuid, x: Uuid, y: Uuid)
    requires actor in s.clients
    requires JoinChannels in s.clients[actor].options && CreateChannels in s.clients[actor].options
    requires x != y && x !in s.channels && y !in s.channels && NIL != x
    ensures var t := JoinTo(JoinTo(s, actor, UuidText(NIL), None, x), actor, UuidText(NIL), None, y);
            x in t.channels && y in t.channels && t.channels[x].name == t.channels[y].name
  {
    hide UuidText, LooksLikeV4, T.ChannelName, IsV4, Create;
    NilNotV4();
    IdTextIsName(NIL);
    TextLooksLikeV4(NIL);
    var u := JoinTo(s, actor, UuidText(NIL), None, x);
    assert u == Create(s, actor, UuidText(NIL), x);
    CreatedChannels(s, actor, UuidText(NIL), x);
    CreateClient(s, actor, UuidText(NIL), x);
    CreatedChannels(u, actor, UuidText(NIL), y);
  }

  lemma NilNotV4()
    ensures !IsV4(NIL)
  {
    assert NIL / Pow16(31 - 12) == 0;
  }

  lemma CreateClient(s: State, actor: Uuid, name: string, newId: Uuid)
    requires actor in s.clients
    ensures var t := Create(s, actor, name, newId);
            actor in t.clients && t.clients[actor].options == s.clients[actor].options
              && t.clients[actor].kind == s.clients[actor].kind
  {
    hide M.Labels;
  }

  /** The step is no join by an id that is not of version 4. */
  predicate JoinsByV4(op: Op) {
    op.Issue? && op.cmd.JoinChannel? && op.cmd.name == "" ==> IsV4(op.cmd.target)
  }

  predicate IsJoin(s: State, op: Op) {
    op.Issue? && op.cmd.JoinChannel? && op.id in s.clients && s.clients[op.id].status != PendingAuth
  }

  lemma OnlyJoinsMake(s: State, op: Op)
    ensures !IsJoin(s, op) ==> DeltaOf(s, op).made == {}
  {
    hide BanKills, MayKill;
  }

  lemma UniqueStep(s: State, op: Op)
    requires Inv(s) && Legal(s, op) && CanAct(s, op) && UniqueNames(s.channels) && JoinsByV4(op)
    ensures UniqueNames(Apply(s, op).channels)
  {
    hide Inv, Handle, HealthCheck, Disconnect, Accept, TextsKept, AddressesKept, PingsKept, ClientsEvolve, T.Lower,
      DeltaOf, LegalCommand, Enumerates, Plans, IsV4;
    if IsJoin(s, op) {
      var u := Touch(s, op.id, op.x.now);
      LegalAfterTouch(s, op.id, op.cmd, op.x);
      OpenInv(s);
      JoinCommandUnique(u, op.id, op.cmd, op.x);
    } else {
      StepKeeps(s, op);
      OnlyJoinsMake(s, op);
      KeptNames(DeltaOf(s, op), s.channels, s.issued, Apply(s, op).channels);
    }
  }

  lemma KeptNames(d: Delta, before: Channels, issued: set<Uuid>, after: Channels)
    requires ChannelsEvolve(d, before, issued, after) && d.made == {} && UniqueNames(before)
    ensures UniqueNames(after)
  {
    hide T.Lower;
    forall c | c in after ensures c in before && after[c].name == before[c].name {
    }
  }

  lemma JoinCommandUnique(s: State, id: Uuid, cmd: Command, x: Chance)
    requires id in s.clients && cmd.JoinChannel? && LegalCommand(s, id, cmd, x) && s.clients[id].status != PendingAuth
    requires ChannelIds(s.channels, s.issued) && UniqueNames(s.channels) && (cmd.name == "" ==> IsV4(cmd.target))
    ensures UniqueNames(Handle(s, id, cmd, x).channels)
  {
    hide JoinTo, UuidText, IsV4, LooksLikeV4, T.ChannelName, T.Lower, UniqueNames, Enumerates, ExactLookup;
    HandleIs(s, id, cmd, x);
    var text, found := JoinText(cmd.name, cmd.target), JoinFound(s, cmd.name, cmd.target, x.named);
    assert x.newId !in s.channels;
    if cmd.name == "" {
      TextLooksLikeV4(cmd.target);
    } else if found.None? {
      assert NameFree(s.channels, text);
    }
    JoinKeepsUnique(s, id, text, found, x.newId);
  }

  /** In every run whose joins by id carry version-4 ids, lower-cased channel names are unique. */
  lemma {:induction false} ChannelNamesUnique(r: Run, i: nat)
    requires IsRun(r) && i < |r.states|
    requires forall k :: 0 <= k < i ==> JoinsByV4(r.ops[k])
    ensures UniqueNames(r.states[i].channels)
  {
    hide Inv, Legal, Apply, CanAct, Settled, Evolves, JoinsByV4, UniqueNames, Start;
    if i == 0 {
      LobbyNamesDiffer(r.setup);
    } else {
      ChannelNamesUnique(r, i - 1);
      RunStep(r, i - 1);
      UniqueStep(r.states[i - 1], r.ops[i - 1]);
    }
  }

  lemma LobbyNamesDiffer(u: Setup)
    requires SetupFine(u)
    ensures UniqueNames(Start(u).channels)
  {
    assert T.Lower(GLOBAL_LOBBY)[0] == 'g' && T.Lower(STAFF_LOBBY)[0] == 's' && T.Lower(GUEST_LOBBY)[0] == 'g';
    assert |T.Lower(GLOBAL_LOBBY)| != |T.Lower(GUEST_LOBBY)|;
    hide T.Lower;
  }

  /** In every run, authenticated clients have valid names, no two of them the same. */
  lemma ClientNamesUnique(r: Run, i: nat, j: Uuid, k: Uuid)
    requires IsRun(r) && i < |r.states|
    requires j in r.states[i].clients && k in r.states[i].clients
    requires r.states[i].clients[j].kind != Unknown && r.states[i].clients[k].kind != Unknown
    ensures T.ClientName(r.states[i].clients[j].name)
    ensures j != k ==> r.states[i].clients[j].name != r.states[i].clients[k].name
  {
    hide Inv, Settled, Mail, Index, Legal, Apply, Start;
    RunKeeps(r, i);
    OpenInv(r.states[i]);
  }
}
