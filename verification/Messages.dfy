/** What the server sends, and the outboxes: for each id the messages written to its connection, oldest first. */
module Messages {
  import opened Uuids

  datatype Ip = V4(addr: nat) | V6(addr: nat)

  /** 0.0.0.0 stands for a masked address. */
  const MASKED := V4(0)

  datatype Problem =
    | NameInUse
    | NameInvalid
    | InvalidAuth
    | InvalidArgument
    | NotAvailable
    | PermissionDenied
    | AlreadyMember
    | NotMember
    | ChannelNameBad
    | ChannelInvalid
    | KickedFromServer

  /** What a list of channels says about one of them: its name, topic, number of members and mode word. */
  datatype Row = Row(name: string, topic: string, members: nat, modes: nat)

  /** A text's source is NIL for the server's own announcements. */
  datatype Msg =
    | AuthOk(id: Uuid, name: string)
    | Join(channel: Uuid, who: Uuid, name: string, ip: Ip)
    | UserList(channel: Uuid, users: map<Uuid, string>)
    | Part(channel: Uuid, who: Uuid, ip: Ip)
    | Kick(channel: Uuid, who: Uuid, reason: string)
    | Quit(channel: Uuid, who: Uuid, name: string, reason: string)
    | ChannelModes(channel: Uuid, labels: seq<string>)
    | Topic(channel: Uuid, topic: string)
    | Text(channel: Uuid, source: Uuid, name: string, text: string)
    | KillNotice(killer: string, killed: string, ip: Ip, reason: string)
    | BanNotice(banner: string, ip: Ip, affected: nat, reason: string)
    | ChannelList(rows: map<Uuid, Row>)
    | Ping(time: int)
    | PingTimeout
    | Trouble(code: Problem)

  type Outbox = map<Uuid, seq<Msg>>

  function Box(out: Outbox, id: Uuid): seq<Msg> {
    if id in out then out[id] else []
  }

  /** Each recipient receives the message once, everybody else nothing. */
  function Deliver(out: Outbox, to: set<Uuid>, m: Msg): (r: Outbox)
    ensures forall id: Uuid :: Box(r, id) == if id in to then Box(out, id) + [m] else Box(out, id)
    ensures r.Keys == out.Keys + to
  {
    map id | id in out.Keys + to :: if id in to then Box(out, id) + [m] else Box(out, id)
  }

  /** Sending to two disjoint groups one after the other is sending to both. */
  lemma DeliverJoin(out: Outbox, a: set<Uuid>, b: set<Uuid>, m: Msg)
    requires a !! b
    ensures Deliver(Deliver(out, a, m), b, m) == Deliver(out, a + b, m)
  {
    var l, r := Deliver(Deliver(out, a, m), b, m), Deliver(out, a + b, m);
    forall id | id in l ensures l[id] == r[id] {
      assert Box(l, id) == Box(r, id);
    }
  }

  /** Texts written by users, as opposed to the server's announcements. */
  predicate IsUserText(m: Msg) {
    m.Text? && m.source != NIL
  }

  function UserTexts(msgs: seq<Msg>): seq<Msg> {
    if msgs == [] then []
    else UserTexts(msgs[..|msgs| - 1]) + (if IsUserText(msgs[|msgs| - 1]) then [msgs[|msgs| - 1]] else [])
  }

  lemma UserTextsSnoc(msgs: seq<Msg>, m: Msg)
    ensures UserTexts(msgs + [m]) == UserTexts(msgs) + (if IsUserText(m) then [m] else [])
  {
    assert (msgs + [m])[..|msgs|] == msgs;
  }

  /** Messages that can change a browser's roster. */
  predicate IsRosterMsg(m: Msg) {
    m.Join? || m.UserList? || m.Part? || m.Kick? || m.Quit?
  }

  /** The message shows somebody's real address. */
  predicate ShowsAddress(m: Msg) {
    ((m.Join? || m.Part?) && m.ip != MASKED) || m.KillNotice? || m.BanNotice?
  }

  function PingCount(msgs: seq<Msg>): nat {
    if msgs == [] then 0 else PingCount(msgs[..|msgs| - 1]) + if msgs[|msgs| - 1].Ping? then 1 else 0
  }

  lemma PingsSnoc(msgs: seq<Msg>, m: Msg)
    ensures PingCount(msgs + [m]) == PingCount(msgs) + if m.Ping? then 1 else 0
  {
    assert (msgs + [m])[..|msgs|] == msgs;
  }

  lemma {:induction false} PingsConcat(a: seq<Msg>, b: seq<Msg>)
    ensures PingCount(a + b) == PingCount(a) + PingCount(b)
  {
    if b == [] {
      assert a + b == a;
    } else {
      assert (a + b)[..|a + b| - 1] == a + b[..|b| - 1];
      PingsConcat(a, b[..|b| - 1]);
    }
  }

  function Addresses(msgs: seq<Msg>): seq<Msg> {
    if msgs == [] then []
    else Addresses(msgs[..|msgs| - 1]) + (if ShowsAddress(msgs[|msgs| - 1]) then [msgs[|msgs| - 1]] else [])
  }

  lemma AddressesSnoc(msgs: seq<Msg>, m: Msg)
    ensures Addresses(msgs + [m]) == Addresses(msgs) + (if ShowsAddress(m) then [m] else [])
  {
    assert (msgs + [m])[..|msgs|] == msgs;
  }

  /** No address was shown: not one of the messages is of that kind. */
  lemma {:induction false} NoAddresses(msgs: seq<Msg>, n: nat)
    requires Addresses(msgs) == [] && n < |msgs|
    ensures !ShowsAddress(msgs[n])
  {
    if n < |msgs| - 1 {
      NoAddresses(msgs[..|msgs| - 1], n);
    }
  }
}
