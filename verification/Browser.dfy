/** The browser's event handlers as an object: the user lists of its rooms, updated message by message. */
module BrowserObject {
  import opened Basics
  import opened Uuids
  import opened Messages
  import Roster

  class Browser {
    const me: Uuid
    /** For each room on the page, its user entries. */
    var rooms: map<Uuid, multiset<Uuid>>

    constructor (me: Uuid)
      ensures this.me == me && rooms == map[]
    {
      this.me, rooms := me, map[];
    }

    function View(c: Uuid): Roster.View
      reads this
    {
      if c in rooms then Some(rooms[c]) else None
    }

    /** Every handler is the fold step of the room it is about, and leaves all other rooms alone. */
    method OnMessage(m: Msg)
      modifies this
      ensures forall c :: View(c) == Roster.React(me, c, old(View(c)), m)
    {
      if IsRosterMsg(m) {
        OnRosterMsg(m);
      }
      Elsewhere(me, m);
    }

    method OnRosterMsg(m: Msg)
      requires IsRosterMsg(m)
      modifies this
      ensures View(m.channel) == Roster.React(me, m.channel, old(View(m.channel)), m)
      ensures forall c :: c != m.channel ==> View(c) == old(View(c))
    {
      hide Roster.Missing;
      match m
      case Join(channel, who, _, _) =>
        if who == me {
          rooms := rooms[channel := (if channel in rooms then rooms[channel] else multiset{}) + multiset{me}];
        } else if channel in rooms {
          rooms := rooms[channel := rooms[channel] + multiset{who}];
        }
      case UserList(channel, users) =>
        if channel in rooms {
          AddUsers(channel, users);
        }
      case Part(channel, who, _) =>
        if who == me {
          rooms := rooms - {channel};
        } else {
          RemoveEntry(channel, who);
        }
      case Kick(channel, who, _) =>
        if who == me {
          rooms := rooms - {channel};
        } else {
          RemoveEntry(channel, who);
        }
      case Quit(channel, who, _, _) => RemoveEntry(channel, who);
    }

    /** The loop over a user list: an entry for everybody but the browser's own user, unless there is one already. */
    method AddUsers(channel: Uuid, users: map<Uuid, string>)
      requires channel in rooms
      modifies this
      ensures rooms == old(rooms)[channel := Roster.Filled(Some(old(rooms)[channel]), users.Keys - {me}).value]
    {
      ghost var before := rooms[channel];
      ghost var all := Roster.Missing(before, users.Keys - {me});
      var rest := users.Keys;
      FillStart(before, all, rest);
      hide *;
      while rest != {}
        invariant rest <= users.Keys && channel in rooms
        invariant rooms == old(rooms)[channel := rooms[channel]]
        invariant rooms[channel] == before + multiset(all - rest)
        decreases rest
      {
        var who :| who in rest;
        FillNext(before, all, rest, who);
        rest := rest - {who};
        if who != me {
          if who !in rooms[channel] {
            rooms := rooms[channel := rooms[channel] + multiset{who}];
          }
        }
      }
      assert all - {} == all;
    }

    method RemoveEntry(channel: Uuid, who: Uuid)
      modifies this
      ensures rooms == if channel in old(rooms) then old(rooms)[channel := old(rooms)[channel] - multiset{who}]
              else old(rooms)
    {
      if channel in rooms {
        rooms := rooms[channel := rooms[channel] - multiset{who}];
      }
    }

    /** A page that is opened and receives these messages shows the fold of them in every room. */
    method Receive(msgs: seq<Msg>)
      requires rooms == map[]
      modifies this
      ensures forall c :: View(c) == Roster.Fold(me, c, msgs)
    {
      for i := 0 to |msgs|
        invariant forall c :: View(c) == Roster.Fold(me, c, msgs[..i])
      {
        assert msgs[..i + 1][..i] == msgs[..i];
        OnMessage(msgs[i]);
      }
      assert msgs[..|msgs|] == msgs;
    }
  }

  lemma Elsewhere(me: Uuid, m: Msg)
    ensures forall c, view :: !IsRosterMsg(m) || c != m.channel ==> Roster.React(me, c, view, m) == view
  {
  }

  lemma FillStart(before: multiset<Uuid>, all: set<Uuid>, rest: set<Uuid>)
    requires all <= rest
    ensures before + multiset(all - rest) == before
  {
    assert all - rest == {};
  }

  /** One more turn of the loop over a user list; `all` are those that were not shown before it. */
  lemma FillNext(before: multiset<Uuid>, all: set<Uuid>, rest: set<Uuid>, who: Uuid)
    requires who in rest
    ensures var now := before + multiset(all - rest);
            && (who in now <==> who in before)
            && before + multiset(all - (rest - {who})) == if who in all then now + multiset{who} else now
  {
    assert all - (rest - {who}) == if who in all then (all - rest) + {who} else all - rest;
  }
}
