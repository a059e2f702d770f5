/** A departure that is not atomic: its loop takes one step per channel, and other clients act in between. */
module Interleaved {
  import opened Uuids
  import opened Machine
  import opened Invariants
  import opened SmallSteps
  import opened Departure
  import opened Handlers
  import opened Steps
  import opened Runs
  import opened Collection

  /** What a teardown loop fixed before its first turn; `discreet` tells connection errors from kills and purges. */
  datatype Exit = Exit(id: Uuid, name: string, reason: string, discreet: bool)

  /** The server, and the channels of the snapshot that the loop has not processed yet. */
  datatype Progress = Progress(s: State, rest: set<Uuid>)

  datatype Move = Other(op: Op) | Turn(channel: Uuid)

  /** Anything may happen in between except a command of the departing client itself. */
  ghost predicate Allowed(e: Exit, p: Progress, m: Move) {
    match m
    case Other(op) => Legal(p.s, op) && (op.Issue? ==> op.id != e.id)
    case Turn(channel) => channel in p.rest
  }

  function Advance(e: Exit, p: Progress, m: Move): Progress {
    match m
    case Other(op) => Progress(Apply(p.s, op), p.rest)
    case Turn(channel) => Progress(Tear(p.s, e.id, channel, e.name, e.reason, e.discreet), p.rest - {channel})
  }

  /** An interleaved departure from a reachable state, up to any point. */
  datatype Story = Story(exit: Exit, points: seq<Progress>, moves: seq<Move>)

  ghost predicate IsStory(t: Story) {
    && |t.points| == |t.moves| + 1
    && t.exit.id in t.points[0].s.clients
    && t.points[0].rest == t.points[0].s.clients[t.exit.id].channels
    && forall i :: 0 <= i < |t.moves| ==>
         Allowed(t.exit, t.points[i], t.moves[i]) && t.points[i + 1] == Advance(t.exit, t.points[i], t.moves[i])
  }

  /** The remaining memberships of the departing client lie inside the unprocessed part of the snapshot. */
  ghost predicate Inside(channels: Channels, id: Uuid, rest: set<Uuid>) {
    forall c :: c in channels && id in channels[c].members ==> c in rest
  }

  lemma OthersDoNotEnter(d: Delta, s: State, t: State, id: Uuid, rest: set<Uuid>)
    requires Evolves(d, s, t) && id !in d.ins && Inside(s.channels, id, rest)
    ensures Inside(t.channels, id, rest)
  {
    hide ClientsEvolve, TextsKept, AddressesKept, PingsKept;
    assert ChannelsEvolve(d, s.channels, s.issued, t.channels);
    forall c | c in t.channels && id in t.channels[c].members ensures c in rest {
      if c in s.channels {
        assert SameChannel(d, c, s.channels[c], t.channels[c]);
        assert id in s.channels[c].members.Keys;
      }
    }
  }

  lemma TurnShrinks(e: Exit, p: Progress, cid: Uuid)
    requires Inside(p.s.channels, e.id, p.rest)
    ensures Inside(Tear(p.s, e.id, cid, e.name, e.reason, e.discreet).channels, e.id, p.rest - {cid})
  {
    if cid in p.s.channels {
      TearParts(p.s, e.id, cid, e.name, e.reason, e.discreet);
    }
  }

  ghost predicate Sound(id: Uuid, p: Progress) {
    Inv(p.s) && Settled(p.s, {id}) && Inside(p.s.channels, id, p.rest)
  }

  lemma OtherActs(s: State, op: Op, id: Uuid)
    requires Inv(s) && Settled(s, {id}) && (op.Issue? ==> op.id != id)
    ensures CanAct(s, op)
  {
    SettledActs(s, op, {id});
  }

  lemma TearClients(s: State, id: Uuid, cid: Uuid, name: string, reason: string, discreet: bool)
    ensures Tear(s, id, cid, name, reason, discreet).clients == s.clients
  {
  }

  lemma AdvanceKeeps(e: Exit, p: Progress, m: Move)
    requires Sound(e.id, p) && Allowed(e, p, m)
    ensures Sound(e.id, Advance(e, p, m))
  {
    hide Inv, Settled, Inside, Evolves, Legal, Apply, CanAct, Tear, DeltaOf;
    match m
    case Other(op) =>
      OtherActs(p.s, op, e.id);
      StepKeeps(p.s, op);
      SettledKeeps(p.s, op, {e.id});
      OnlyActorEnters(p.s, op);
      OthersDoNotEnter(DeltaOf(p.s, op), p.s, Apply(p.s, op), e.id, p.rest);
    case Turn(channel) =>
      TearKeeps(p.s, e.id, channel, e.name, e.reason, e.discreet);
      TurnShrinks(e, p, channel);
      TearClients(p.s, e.id, channel, e.name, e.reason, e.discreet);
      SettledFrame(p.s, Tear(p.s, e.id, channel, e.name, e.reason, e.discreet), {e.id});
  }

  lemma SettledFrame(s: State, t: State, except: set<Uuid>)
    requires Settled(s, except) && t.clients == s.clients
    ensures Settled(t, except)
  {
  }

  /** At every point of an interleaved departure. */
  lemma {:induction false} StoryIsSound(t: Story, i: nat)
    requires IsStory(t) && i < |t.points| && Inv(t.points[0].s) && Settled(t.points[0].s, {t.exit.id})
    ensures Sound(t.exit.id, t.points[i])
  {
    hide Inv, Settled, Allowed, Advance;
    if i == 0 {
      MemberIsListed(t.points[0].s, t.exit.id);
    } else {
      hide Sound;
      StoryIsSound(t, i - 1);
      AdvanceKeeps(t.exit, t.points[i - 1], t.moves[i - 1]);
    }
  }

  /** When the loop is through its snapshot, the client is a member nowhere, so unregistering it restores the
      invariant, whatever the others did meanwhile. */
  lemma InterleavedDeparture(t: Story, i: nat)
    requires IsStory(t) && i < |t.points| && Inv(t.points[0].s) && Settled(t.points[0].s, {t.exit.id})
    requires t.points[i].rest == {}
    ensures var s := t.points[i].s;
            && (forall c :: c in s.channels ==> t.exit.id !in s.channels[c].members)
            && Inv(DropClient(s, t.exit.id)) && Settled(DropClient(s, t.exit.id), {})
  {
    hide Inv, Allowed, Advance;
    StoryIsSound(t, i);
    DropKeeps(t.points[i].s, t.exit.id);
  }

  /** A departure can start in every state of a run; the loops that follow an error or a timeout first mark the
      client as closing or as a zombie. */
  lemma DepartureStarts(s: State, id: Uuid, mark: Status)
    requires Inv(s) && Settled(s, {}) && id in s.clients
             && (mark == Closing || mark == Zombie || mark == s.clients[id].status)
    ensures var u := PutClient(s, s.clients[id].(status := mark));
            Inv(u) && Settled(u, {id}) && id in u.clients && u.clients[id].channels == s.clients[id].channels
  {
    IdIssued(s, id);
    StandingAt(s, id);
    hide Inv;
    ClientKeeps(s, s.clients[id].(status := mark));
  }

  lemma TurnCollects(e: Exit, s: State, cid: Uuid)
    requires Collected(s.channels)
    ensures Collected(Tear(s, e.id, cid, e.name, e.reason, e.discreet).channels)
  {
    if cid in s.channels {
      TearParts(s, e.id, cid, e.name, e.reason, e.discreet);
      WithoutTwice(s.channels[cid], e.id);
    }
  }

  /** And if nobody strands an empty channel meanwhile, the departure leaves none behind either. */
  lemma {:induction false} InterleavedCollects(t: Story, i: nat)
    requires IsStory(t) && i < |t.points| && Inv(t.points[0].s) && Settled(t.points[0].s, {t.exit.id})
    requires Collected(t.points[0].s.channels)
    requires forall k :: 0 <= k < i && t.moves[k].Other? ==> !StrandingStep(t.points[k].s, t.moves[k].op)
    ensures Collected(t.points[i].s.channels)
  {
    hide Inv, Settled, Inside, Legal, Apply, CanAct, Tear, Collected, StrandingStep;
    if i > 0 {
      var p, m := t.points[i - 1], t.moves[i - 1];
      InterleavedCollects(t, i - 1);
      StoryIsSound(t, i - 1);
      match m
      case Other(op) =>
        OtherActs(p.s, op, t.exit.id);
        CollectedStep(p.s, op);
      case Turn(channel) => TurnCollects(t.exit, p.s, channel);
    }
  }
}
