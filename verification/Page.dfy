/** What the browser's page keeps of a channel's modes: labels arrive at once, are kept when a timer of half a second
    ends, and are forgotten when the page joins the channel again. */
module Page {
  import opened Basics
  import opened Uuids
  import opened Messages

  /** A message arrives, or the oldest pending timer ends; all timers run equally long. */
  datatype Event = Got(m: Msg) | TimerEnds

  /** The page's record of one channel, if it has one, holds the labels, if there are any; `due` are those whose timer
      is pending, oldest first. */
  datatype Kept = Kept(room: Option<Option<seq<string>>>, due: seq<seq<string>>)

  function React(me: Uuid, c: Uuid, k: Kept, e: Event): Kept {
    match e
    case Got(m) =>
      if m.Join? && m.channel == c && m.who == me then k.(room := Some(None))
      else if m.ChannelModes? && m.channel == c then k.(due := k.due + [m.labels])
      else k
    case TimerEnds =>
      if k.due == [] then k
      else Kept(if k.room.Some? then Some(Some(k.due[0])) else None, k.due[1..])
  }

  /** A page that was just opened, after these events. */
  function After(me: Uuid, c: Uuid, events: seq<Event>): Kept {
    if events == [] then Kept(None, [])
    else React(me, c, After(me, c, events[..|events| - 1]), events[|events| - 1])
  }

  function Inbox(events: seq<Event>): seq<Msg> {
    if events == [] then []
    else
      var e := events[|events| - 1];
      Inbox(events[..|events| - 1]) + (if e.Got? then [e.m] else [])
  }

  /** The labels of the last message about the channel's modes. */
  function Shown(c: Uuid, msgs: seq<Msg>): Option<seq<string>> {
    if msgs == [] then None
    else
      var m := msgs[|msgs| - 1];
      if m.ChannelModes? && m.channel == c then Some(m.labels) else Shown(c, msgs[..|msgs| - 1])
  }

  lemma ShownSnoc(c: Uuid, msgs: seq<Msg>, m: Msg)
    ensures Shown(c, msgs + [m]) == if m.ChannelModes? && m.channel == c then Some(m.labels) else Shown(c, msgs)
  {
    assert (msgs + [m])[..|msgs|] == msgs;
  }

  /** Since the page last joined the channel, a timer for its labels has ended. */
  predicate Refreshed(me: Uuid, c: Uuid, events: seq<Event>) {
    events != []
    && var e, before := events[|events| - 1], events[..|events| - 1];
       if e.Got? then Refreshed(me, c, before) && !(e.m.Join? && e.m.channel == c && e.m.who == me)
       else Refreshed(me, c, before) || (After(me, c, before).room.Some? && After(me, c, before).due != [])
  }

  lemma AfterIs(me: Uuid, c: Uuid, events: seq<Event>)
    requires events != []
    ensures var e, before := events[|events| - 1], events[..|events| - 1];
            var k := After(me, c, before);
            && After(me, c, events) == React(me, c, k, e)
            && Inbox(events) == (if e.Got? then Inbox(before) + [e.m] else Inbox(before))
            && Refreshed(me, c, events) ==
               if e.Got? then Refreshed(me, c, before) && !(e.m.Join? && e.m.channel == c && e.m.who == me)
               else Refreshed(me, c, before) || (k.room.Some? && k.due != [])
  {
  }

  /** The pending labels end with the last that were sent; once none is pending, the page keeps the last that were sent
      exactly if a timer has ended since it joined. */
  lemma {:induction false} KeptLabels(me: Uuid, c: Uuid, events: seq<Event>)
    ensures var k, last := After(me, c, events), Shown(c, Inbox(events));
            && (k.due != [] ==> last == Some(k.due[|k.due| - 1]))
            && (k.due == [] && Refreshed(me, c, events) ==> last.Some? && k.room == Some(last))
            && (!Refreshed(me, c, events) ==> k.room == None || k.room == Some(None))
            && (Refreshed(me, c, events) ==> k.room.Some? && k.room.value.Some?)
  {
    if events != [] {
      var before, e := events[..|events| - 1], events[|events| - 1];
      KeptLabels(me, c, before);
      AfterIs(me, c, events);
      hide After, Refreshed, Inbox, Shown;
      if e.Got? {
        ShownSnoc(c, Inbox(before), e.m);
      }
    }
  }
}
