/** The `Channel` objects of the registry: members, modes, topic, and sending to members. */
module ChannelObject {
  import opened Basics
  import opened Uuids
  import opened Messages
  import opened ClientObject
  import S = Machine
  import M = Modes

  class Channel {
    const id: Uuid
    const name: string
    const owner: Option<Uuid>
    var members: map<Uuid, S.Member>
    var topic: Option<string>
    var options: M.Options

    constructor (id: Uuid, name: string, owner: Option<Uuid>)
      ensures this.id == id && this.name == name && this.owner == owner && Valid()
      ensures Record() == S.ChannelRec(id, name, owner, map[], None,
                                       {M.ClientInvites, M.SaveHistory, M.WaitForAgent, M.RejoinClients})
    {
      this.id, this.name, this.owner := id, name, owner;
      members, topic := map[], None;
      options := {M.ClientInvites, M.SaveHistory, M.WaitForAgent, M.RejoinClients};
    }

    /** Members are stored under their own ids. */
    ghost predicate Valid()
      reads this
    {
      forall k :: k in members ==> members[k].id == k
    }

    function Record(): S.ChannelRec
      reads this
    {
      S.ChannelRec(id, name, owner, members, topic, options)
    }

    predicate HasOption(flag: M.Flag)
      reads this
    {
      flag in options
    }

    method AddOption(flag: M.Flag)
      modifies this
      ensures Record() == old(Record()).(options := old(options) + {flag})
    {
      options := options + {flag};
    }

    /** The removal is an exclusive or, so it sets a flag that was not set. */
    method RemoveOption(flag: M.Flag)
      modifies this
      ensures Record() == old(Record()).(options := M.Xor(old(options), {flag}))
      ensures flag in old(options) ==> options == old(options) - {flag}
    {
      options := M.Xor(options, {flag});
    }

    method SetOptions(newOptions: M.Options)
      modifies this
      ensures Record() == old(Record()).(options := newOptions)
    {
      options := newOptions;
    }

    method SetTopic(newTopic: Option<string>)
      modifies this
      ensures Record() == old(Record()).(topic := newTopic)
    {
      topic := newTopic;
    }

    /** The loop over the modes an owner may set: exactly those are taken from the request, all others survive. */
    method MergePublicModes(requested: M.Options)
      modifies this
      ensures Record() == old(Record()).(options := M.Merge(old(options), requested))
    {
      ghost var before := options;
      for i := 0 to |M.PublicModes()|
        invariant Record() == old(Record()).(options := options)
        invariant forall f: M.Flag ::
          f in options <==> if f in M.PublicModes()[..i] then f in requested else f in before
      {
        var mode := M.PublicModes()[i];
        assert M.PublicModes()[..i + 1] == M.PublicModes()[..i] + [mode];
        if mode in requested && !HasOption(mode) {
          AddOption(mode);
        } else if mode !in requested && HasOption(mode) {
          RemoveOption(mode);
        }
      }
      assert M.PublicModes()[..2] == M.PublicModes() && forall f: M.Flag :: f in M.PublicModes() <==> f in M.PUBLIC;
      assert options == M.Merge(before, requested);
    }

    method RemoveMember(who: Uuid)
      requires Valid()
      modifies this
      ensures Valid() && Record() == S.Without(old(Record()), who)
    {
      members := members - {who};
    }

    predicate IsMember(who: Uuid)
      reads this
    {
      who in members
    }

    function CountMembers(): nat
      reads this
    {
      |members|
    }

    /** The ids and names for a user list. */
    method GetMembers() returns (users: map<Uuid, string>)
      ensures users == S.UsersOf(Record())
    {
      users := map k | k in members :: members[k].name;
    }

    // Sending: the members are visited in no particular order

    method SendToAllButOne(wire: Wire, except: Uuid, m: Msg)
      requires Valid()
      modifies wire
      ensures wire.sent == Deliver(old(wire.sent), members.Keys - {except}, m)
    {
      hide Deliver;
      var rest := members.Keys;
      ghost var all := members.Keys - {except};
      NobodyYet(wire.sent, all, rest, m);
      while rest != {}
        invariant rest <= members.Keys
        invariant wire.sent == Deliver(old(wire.sent), all - rest, m)
        decreases rest
      {
        var k :| k in rest;
        OneMore(old(wire.sent), all, rest, k, m);
        rest := rest - {k};
        if members[k].id != except {
          wire.Send(members[k].id, m);
        }
      }
      assert all - {} == all;
    }

    method SendToNonAgents(wire: Wire, m: Msg)
      requires Valid()
      modifies wire
      ensures wire.sent == Deliver(old(wire.sent), S.NonAgentsOf(old(Record())), m)
    {
      hide Deliver, S.NonAgentsOf;
      var rest := members.Keys;
      ghost var ch := Record();
      ghost var all := S.NonAgentsOf(ch);
      GroupsAreMembers(ch);
      NobodyYet(wire.sent, all, rest, m);
      while rest != {}
        invariant rest <= members.Keys
        invariant wire.sent == Deliver(old(wire.sent), all - rest, m)
        decreases rest
      {
        var k :| k in rest;
        OneMore(old(wire.sent), all, rest, k, m);
        rest := rest - {k};
        GroupOf(ch, k);
        if members[k].kind != S.Agent {
          wire.Send(members[k].id, m);
        }
      }
      assert all - {} == all;
    }

    method SendToAgents(wire: Wire, m: Msg)
      requires Valid()
      modifies wire
      ensures wire.sent == Deliver(old(wire.sent), S.AgentsOf(old(Record())), m)
    {
      hide Deliver, S.AgentsOf;
      var rest := members.Keys;
      ghost var ch := Record();
      ghost var all := S.AgentsOf(ch);
      GroupsAreMembers(ch);
      NobodyYet(wire.sent, all, rest, m);
      while rest != {}
        invariant rest <= members.Keys
        invariant wire.sent == Deliver(old(wire.sent), all - rest, m)
        decreases rest
      {
        var k :| k in rest;
        OneMore(old(wire.sent), all, rest, k, m);
        rest := rest - {k};
        GroupOf(ch, k);
        if members[k].kind == S.Agent {
          wire.Send(members[k].id, m);
        }
      }
      assert all - {} == all;
    }

    method SendToAll(wire: Wire, m: Msg)
      requires Valid()
      modifies wire
      ensures wire.sent == Deliver(old(wire.sent), members.Keys, m)
    {
      hide Deliver;
      var rest := members.Keys;
      ghost var all := members.Keys;
      NobodyYet(wire.sent, all, rest, m);
      while rest != {}
        invariant rest <= members.Keys
        invariant wire.sent == Deliver(old(wire.sent), all - rest, m)
        decreases rest
      {
        var k :| k in rest;
        OneMore(old(wire.sent), all, rest, k, m);
        rest := rest - {k};
        wire.Send(members[k].id, m);
      }
      assert all - {} == all;
    }

    /** `s` is any state with the present outboxes: only those matter to a broadcast. */
    method BroadcastJoin(wire: Wire, who: Uuid, name: string, ip: Ip, ghost s: S.State)
      requires Valid() && s.outbox == wire.sent
      modifies wire
      ensures wire.sent == S.BroadcastJoin(s, Record(), who, name, ip).outbox
    {
      if HasOption(M.HiddenMemberList) || HasOption(M.Invisible) {
        SendToAgents(wire, Join(id, who, name, ip));
      } else {
        SendToNonAgents(wire, Join(id, who, name, MASKED));
        SendToAgents(wire, Join(id, who, name, ip));
      }
    }

    method BroadcastPart(wire: Wire, who: Uuid, ip: Ip, ghost s: S.State)
      requires Valid() && s.outbox == wire.sent
      modifies wire
      ensures wire.sent == S.BroadcastPart(s, Record(), who, ip).outbox
    {
      if HasOption(M.HiddenMemberList) || HasOption(M.Invisible) {
        // The future that would tell the agents is dropped before it runs.
      } else {
        SendToNonAgents(wire, Part(id, who, MASKED));
        SendToAgents(wire, Part(id, who, ip));
      }
    }

    /** Announce the newcomer to those who are already members, then insert its clone. */
    method AddMember(wire: Wire, client: Client, ghost s: S.State)
      requires Valid() && s.outbox == wire.sent
      modifies this, wire
      ensures Valid() && Record() == old(Record()).(members := old(members)[client.id := S.Clone(client.Record())])
      ensures wire.sent == AnnouncedTo(s, old(Record()), client.Record())
    {
      if !client.HasOption(S.Unseen) {
        BroadcastJoin(wire, client.id, client.name, client.ip, s);
        wire.Send(client.id, ChannelModes(id, M.Labels(options)));
      }
      members := members[client.id := S.Member(client.id, client.name, client.kind, client.options, client.ip)];
    }
  }

  /** What everybody has received after a newcomer was announced and shown the modes. */
  ghost function AnnouncedTo(s: S.State, ch: S.ChannelRec, c: S.ClientRec): Outbox {
    var heard := if S.Unseen !in c.options then S.BroadcastJoin(s, ch, c.id, c.name, c.ip) else s;
    S.CastIf(heard, S.Unseen !in c.options, {c.id}, ChannelModes(ch.id, M.Labels(ch.options))).outbox
  }

  lemma GroupsAreMembers(ch: S.ChannelRec)
    ensures S.AgentsOf(ch) <= ch.members.Keys && S.NonAgentsOf(ch) <= ch.members.Keys
  {
  }

  lemma GroupOf(ch: S.ChannelRec, k: Uuid)
    requires k in ch.members
    ensures k in S.AgentsOf(ch) <==> ch.members[k].kind == S.Agent
    ensures k in S.NonAgentsOf(ch) <==> ch.members[k].kind != S.Agent
  {
  }

  lemma NobodyYet(out: Outbox, all: set<Uuid>, rest: set<Uuid>, m: Msg)
    requires all <= rest
    ensures Deliver(out, all - rest, m) == out
  {
    assert all - rest == {};
  }

  /** One more turn of a loop over `rest` that sends to the members in `all`. */
  lemma OneMore(out: Outbox, all: set<Uuid>, rest: set<Uuid>, k: Uuid, m: Msg)
    requires k in rest
    ensures var now := Deliver(out, all - rest, m);
            Deliver(out, all - (rest - {k}), m) == if k in all then Deliver(now, {k}, m) else now
  {
    hide Deliver;
    if k in all {
      DeliverJoin(out, all - rest, {k}, m);
      assert all - (rest - {k}) == (all - rest) + {k};
    } else {
      assert all - (rest - {k}) == all - rest;
    }
  }
}
