/** The commands on channels other than join: kick, modes, topic, part and the list of channels. */
module ChannelCommands {
  import opened Basics
  import opened Uuids
  import opened Messages
  import opened ClientObject
  import opened ChannelObject
  import opened ServerObject
  import opened Commands
  import Effects
  import S = Machine
  import M = Modes
  import T = Text

  method KickMember(server: Server, client: Client, cid: Uuid, user: Uuid, reason: string)
    requires Serves(server, client)
    modifies server.Parts()
    ensures server.Valid() && server.Parts() == old(server.Parts())
    ensures server.Abs() == S.KickFrom(old(server.Abs()), client.id, cid, user, reason)
  {
    hide Deliver, S.Tell;
    if cid in server.channels {
      var channel := server.channels[cid];
      if channel.owner.UnwrapOr(NIL) != client.id && client.kind != S.Agent {
        Report(server, client, PermissionDenied);
        return;
      }
      if !channel.IsMember(user) {
        Report(server, client, NotMember);
        return;
      }
      if user !in server.clients {
        Report(server, client, NotMember);
        return;
      }
      Expel(server, channel, server.clients[user], reason);
    } else {
      Report(server, client, ChannelInvalid);
    }
  }

  /** What a permitted kick does. */
  ghost function Kicked(s: S.State, cid: Uuid, user: Uuid, reason: string): S.State
    requires cid in s.channels && user in s.clients
  {
    var s1 := S.RemoveMember(S.Cast(s, s.channels[cid].members.Keys, Kick(cid, user, reason)), cid, user);
    s1.(clients := s.clients[user := s.clients[user].(channels := s.clients[user].channels - {cid})])
  }

  method Expel(server: Server, channel: Channel, target: Client, reason: string)
    requires Serves(server, target) && channel.id in server.channels && server.channels[channel.id] == channel
    modifies server.Parts()
    ensures server.Valid() && server.Parts() == old(server.Parts())
    ensures server.Abs() == Kicked(old(server.Abs()), channel.id, target.id, reason)
  {
    hide Deliver;
    channel.SendToAll(server.wire, Kick(channel.id, target.id, reason));
    channel.RemoveMember(target.id);
    server.ChannelOnly(channel.id);
    label Removed:
    target.RemoveChannel(channel.id);
    server.ClientOnly@Removed(target.id);
  }

  /** Tell all members about new settings. */
  method Announce(server: Server, channel: Channel, m1: Msg, m2: Msg)
    requires server.Valid() && channel.id in server.channels && server.channels[channel.id] == channel
    modifies server.wire
    ensures server.Valid()
    ensures server.Abs() ==
            S.Cast(S.Cast(old(server.Abs()), old(channel.members.Keys), m1), old(channel.members.Keys), m2)
  {
    hide Deliver;
    channel.SendToAll(server.wire, m1);
    channel.SendToAll(server.wire, m2);
    server.MailOnly();
  }

  method SetChannelModes(server: Server, client: Client, cid: Uuid, modes: M.U64)
    requires Serves(server, client)
    modifies server.Parts()
    ensures server.Valid() && server.Parts() == old(server.Parts())
    ensures server.Abs() == S.SetModes(old(server.Abs()), client.id, cid, modes)
  {
    hide Deliver, S.SetModes, Moded, M.FlagsOf, M.WordOf, M.Labels, M.Merge;
    SetModesIs(server.Abs(), client.id, cid, modes);
    if cid !in server.channels {
      Report(server, client, ChannelInvalid);
      return;
    }
    var channel := server.channels[cid];
    if channel.owner.UnwrapOr(NIL) != client.id && client.kind != S.Agent {
      Report(server, client, PermissionDenied);
      return;
    }
    RequestModes(server, client, channel, modes);
  }

  /** The requested flags are summed up, and the sum is decoded again. */
  method RequestModes(server: Server, client: Client, channel: Channel, modes: M.U64)
    requires Serves(server, client) && channel.id in server.channels && server.channels[channel.id] == channel
    modifies server.Parts()
    ensures server.Valid() && server.Parts() == old(server.Parts())
    ensures server.Abs() == Moded(old(server.Abs()), channel.id, old(client.name),
                                  if old(client.kind) == S.Agent then M.FlagsOf(modes)
                                  else M.Merge(old(channel.options), M.FlagsOf(modes)))
  {
    hide M.FlagsOf, M.WordOf, M.Merge, M.Labels, Moded, Deliver;
    var sum := M.AccumulateModes(modes);
    var options := M.OptionsFromWord(sum);
    ChangeModes(server, client, channel, options);
  }

  lemma SetModesIs(s: S.State, actor: Uuid, cid: Uuid, modes: M.U64)
    requires actor in s.clients
    ensures var c := s.clients[actor];
            S.SetModes(s, actor, cid, modes) ==
              if cid !in s.channels then S.Tell(s, actor, ChannelInvalid)
              else if !S.Owns(s.channels[cid], c) then S.Tell(s, actor, PermissionDenied)
              else Moded(s, cid, c.name, if c.kind == S.Agent then M.FlagsOf(modes)
                                         else M.Merge(s.channels[cid].options, M.FlagsOf(modes)))
  {
    hide Deliver, M.FlagsOf, M.Labels, M.Merge;
  }

  /** What a permitted mode command does with the requested modes. */
  ghost function Moded(s: S.State, cid: Uuid, name: string, after: M.Options): S.State
    requires cid in s.channels
  {
    var ch := s.channels[cid];
    if after == ch.options then s
    else
      var s1 := s.(channels := s.channels[cid := ch.(options := after)]);
      S.Cast(S.Cast(s1, ch.members.Keys, Text(cid, NIL, name, "has changed the channel modes.")),
             ch.members.Keys, ChannelModes(cid, M.Labels(after)))
  }

  method ChangeModes(server: Server, client: Client, channel: Channel, options: M.Options)
    requires Serves(server, client) && channel.id in server.channels && server.channels[channel.id] == channel
    modifies server.Parts()
    ensures server.Valid() && server.Parts() == old(server.Parts())
    ensures server.Abs() == Moded(old(server.Abs()), channel.id, old(client.name),
                                  if old(client.kind) == S.Agent then options
                                  else M.Merge(old(channel.options), options))
  {
    hide Deliver, M.Merge, M.Labels;
    var cid, original, name := channel.id, channel.options, client.name;
    if client.kind != S.Agent {
      channel.MergePublicModes(options);
      server.ChannelOnly(cid);
      if original == channel.options {
        assert server.Abs().channels == old(server.Abs()).channels;
        return;
      }
    } else {
      if original == options {
        return;
      }
      channel.SetOptions(options);
      server.ChannelOnly(cid);
    }
    Announce(server, channel, Text(cid, NIL, name, "has changed the channel modes."),
             ChannelModes(cid, M.Labels(channel.options)));
  }

  method SetChannelTopic(server: Server, client: Client, cid: Uuid, topic: string)
    requires Serves(server, client)
    modifies server.Parts()
    ensures server.Valid() && server.Parts() == old(server.Parts())
    ensures server.Abs() == S.SetTopic(old(server.Abs()), client.id, cid, topic)
  {
    hide Deliver, S.Tell, T.Escape;
    if cid !in server.channels {
      Report(server, client, ChannelInvalid);
      return;
    }
    var channel := server.channels[cid];
    if channel.owner.UnwrapOr(NIL) != client.id && client.kind != S.Agent {
      Report(server, client, PermissionDenied);
      return;
    }
    var clean := T.Escape(topic);
    if |clean| > server.conf.maxTopic {
      Report(server, client, InvalidArgument);
      return;
    }
    if |clean| == 0 {
      channel.SetTopic(None);
    } else {
      channel.SetTopic(Some(clean));
    }
    server.ChannelOnly(cid);
    Announce(server, channel, Text(cid, NIL, client.name, "has changed the channel topic."), Topic(cid, clean));
  }

  method Part(server: Server, client: Client, cid: Uuid)
    requires Serves(server, client)
    modifies server.Parts()
    ensures server.Valid() && server.Parts() <= old(server.Parts())
    ensures server.Abs() == S.PartFrom(old(server.Abs()), client.id, cid)
  {
    hide Deliver, S.Leave;
    if !client.HasOption(S.Admin) && !client.HasOption(S.PartChannels) {
      Report(server, client, PermissionDenied);
      return;
    }
    if cid !in server.channels {
      Report(server, client, ChannelInvalid);
      return;
    }
    var channel := server.channels[cid];
    if !channel.IsMember(client.id) {
      Report(server, client, NotMember);
      return;
    }
    if channel.HasOption(M.CanNotLeave) && (client.kind != S.Agent || !client.HasOption(S.Admin)) {
      Report(server, client, PermissionDenied);
      return;
    }
    LeaveChannel(server, client, channel);
  }

  /** The client's own channel list is not updated. */
  method LeaveChannel(server: Server, client: Client, channel: Channel)
    requires Serves(server, client) && channel.id in server.channels && server.channels[channel.id] == channel
    modifies server.Parts()
    ensures server.Valid() && server.Parts() <= old(server.Parts())
    ensures server.Abs() == S.Leave(old(server.Abs()), client.id, channel.id)
  {
    hide Deliver;
    var cid := channel.id;
    ghost var s1 := S.Cast(server.Abs(), {client.id}, Messages.Part(cid, client.id, MASKED));
    server.wire.Send(client.id, Messages.Part(cid, client.id, MASKED));
    channel.RemoveMember(client.id);
    server.ChannelOnly(cid);
    ghost var s2 := server.Abs();
    assert s2 == S.RemoveMember(s1, cid, client.id);
    label Told:
    channel.BroadcastPart(server.wire, client.id, client.ip, s2);
    server.MailOnly@Told();
    ghost var s3 := server.Abs();
    assert s3 == S.BroadcastPart(s2, s2.channels[cid], client.id, client.ip);
    if channel.CountMembers() == 0 && !channel.HasOption(M.Persist) {
      server.RemoveChannel(cid);
    }
  }

  // The list of channels

  /** One row for each channel that is neither invisible nor secret, nor agent-only and asked for by somebody else. */
  method CollectRows(server: Server, client: Client) returns (rows: map<Uuid, Row>)
    requires Serves(server, client)
    ensures rows == S.ListFor(server.Abs().channels, client.kind)
    ensures forall c :: c in rows <==>
              && c in server.channels
              && M.Invisible !in server.channels[c].options && M.Secret !in server.channels[c].options
              && (M.AgentOnly in server.channels[c].options ==> client.kind == S.Agent)
    ensures forall c :: c in rows ==>
              && c in server.channels
              && rows[c].name == server.channels[c].name
              && rows[c].topic == server.channels[c].topic.UnwrapOr("")
              && rows[c].members == |server.channels[c].members.Keys|
              && M.FlagsOf(rows[c].modes) == server.channels[c].options
  {
    hide M.WordOf;
    rows := map[];
    var rest := server.channels.Keys;
    while rest != {}
      invariant rest <= server.channels.Keys
      invariant forall c :: c in rows <==>
                  c in server.channels && c !in rest && S.OnList(server.channels[c].Record(), client.kind)
      invariant forall c :: c in rows ==> rows[c] == S.RowOf(server.channels[c].Record())
      decreases rest
    {
      var c :| c in rest;
      rest := rest - {c};
      var channel := server.channels[c];
      if channel.HasOption(M.Invisible) || channel.HasOption(M.Secret)
         || (channel.HasOption(M.AgentOnly) && client.kind != S.Agent) {
      } else {
        rows := rows[c := Row(channel.name, channel.topic.UnwrapOr(""), channel.CountMembers(),
                              M.WordOf(channel.options))];
      }
    }
    assert rows == S.ListFor(server.Abs().channels, client.kind);
    Effects.RowsAre(server.Abs().channels, client.kind);
    ghost var table := server.Abs().channels;
    assert forall c :: c in server.channels <==> c in table;
    assert forall c :: c in server.channels ==> table[c] == server.channels[c].Record();
    hide S.ListFor, M.FlagsOf;
  }

  /** The client is sent the rows it may see. */
  method ListChannels(server: Server, client: Client)
    requires Serves(server, client)
    modifies server.Parts()
    ensures server.Valid() && server.Parts() == old(server.Parts())
    ensures server.Abs() == S.ListTo(old(server.Abs()), client.id)
  {
    hide Deliver, S.ListFor;
    var rows := CollectRows(server, client);
    server.Tell(client.id, Messages.ChannelList(rows));
  }
}
