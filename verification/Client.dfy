/** The connection of every client, and the `Client` objects of the registry. */
module ClientObject {
  import opened Uuids
  import opened Messages
  import S = Machine
  import T = Text

  /** The sending halves of all connections. Sends always succeed. */
  class Wire {
    var sent: Outbox

    constructor ()
      ensures sent == map[]
    {
      sent := map[];
    }

    method Send(to: Uuid, m: Msg)
      modifies this
      ensures sent == Deliver(old(sent), {to}, m)
    {
      sent := sent[to := Box(sent, to) + [m]];
      assert sent == Deliver(old(sent), {to}, m);
    }
  }

  /** A client of the registry; `channels` holds the ids of its own channel list. */
  class Client {
    const id: Uuid
    const ip: Ip
    var name: string
    var kind: S.ClientType
    var options: set<S.Power>
    var lastPing: S.Time
    var lastAction: S.Time
    var status: S.Status
    var channels: set<Uuid>

    /** A new connection has an unchecked name and may only join channels. */
    constructor (id: Uuid, ip: Ip, name: string, now: S.Time)
      ensures this.id == id && this.ip == ip
      ensures Record() == S.ClientRec(id, name, S.Unknown, {S.JoinChannels}, ip, now, now, S.PendingAuth, {})
    {
      this.id, this.ip, this.name := id, ip, name;
      kind, options := S.Unknown, {S.JoinChannels};
      lastPing, lastAction := now, now;
      status, channels := S.PendingAuth, {};
    }

    function Record(): S.ClientRec
      reads this
    {
      S.ClientRec(id, name, kind, options, ip, lastPing, lastAction, status, channels)
    }

    predicate HasOption(power: S.Power)
      reads this
    {
      power in options
    }

    method AddChannel(cid: Uuid)
      modifies this
      ensures Record() == old(Record()).(channels := old(channels) + {cid})
    {
      channels := channels + {cid};
    }

    method RemoveChannel(cid: Uuid)
      modifies this
      ensures Record() == old(Record()).(channels := old(channels) - {cid})
    {
      channels := channels - {cid};
    }

    method ClearChannels()
      modifies this
      ensures Record() == old(Record()).(channels := {})
    {
      channels := {};
    }

    /** Only names of 3 to 30 letters, digits, spaces and hyphens are accepted. */
    method SetName(newName: string) returns (ok: bool)
      modifies this
      ensures ok <==> T.ClientName(newName)
      ensures Record() == old(Record()).(name := if ok then newName else old(name))
    {
      ok := T.ClientName(newName);
      if ok {
        name := newName;
      }
    }

    method SetStatus(newStatus: S.Status)
      modifies this
      ensures Record() == old(Record()).(status := newStatus)
    {
      status := newStatus;
    }

    method SetType(newKind: S.ClientType)
      modifies this
      ensures Record() == old(Record()).(kind := newKind)
    {
      kind := newKind;
    }

    method SetOptions(newOptions: set<S.Power>)
      modifies this
      ensures Record() == old(Record()).(options := newOptions)
    {
      options := newOptions;
    }

    method UpdateLastPingTime(now: S.Time)
      modifies this
      ensures Record() == old(Record()).(lastPing := now)
    {
      lastPing := now;
    }

    method UpdateLastActionTime(now: S.Time)
      modifies this
      ensures Record() == old(Record()).(lastAction := now)
    {
      lastAction := now;
    }
  }
}
