/** The idle timer: when a silent client is pinged and when it is purged. */
module Idle {
  import opened Basics
  import opened Uuids
  import opened Messages
  import opened Machine
  import opened Invariants
  import opened SmallSteps
  import opened Handlers
  import opened Steps
  import opened Runs
  import opened Farewells
  import T = Text

  /** The record of a client that sends nothing, after health checks at these times. */
  function After(c: ClientRec, checks: seq<Time>): ClientRec {
    if checks == [] then c
    else Checked(After(c, checks[..|checks| - 1]), checks[|checks| - 1])
  }

  /** How many of the checks send a ping. */
  function Pings(c: ClientRec, checks: seq<Time>): nat {
    if checks == [] then 0
    else
      Pings(c, checks[..|checks| - 1])
      + if NeedsPing(After(c, checks[..|checks| - 1]), checks[|checks| - 1]) then 1 else 0
  }

  /** The i-th check selects the client for the purge. */
  predicate Selected(c: ClientRec, checks: seq<Time>, i: nat)
    requires i < |checks|
  {
    Expired(After(c, checks[..i]), checks[i])
  }

  predicate SilentSince(c: ClientRec, t0: Time) {
    c.lastPing == t0 && c.lastAction == t0
  }

  /** Each ping moves the action time forward by more than a minute, but never past the ping timeout. */
  lemma {:induction false} PingsMoveTheAction(c: ClientRec, checks: seq<Time>, t0: Time)
    requires SilentSince(c, t0)
    ensures var a, p := After(c, checks), Pings(c, checks);
            && a.lastPing == t0
            && (p == 0 ==> a.lastAction == t0)
            && (p > 0 ==> t0 + p * PING_CHECK_IDLE < a.lastAction <= t0 + PING_TIMEOUT)
  {
    if checks != [] {
      PingsMoveTheAction(c, checks[..|checks| - 1], t0);
    }
  }

  /** At most two pings, whatever the times of the checks. */
  lemma AtMostTwoPings(c: ClientRec, checks: seq<Time>, t0: Time)
    requires SilentSince(c, t0)
    ensures Pings(c, checks) <= 2
  {
    PingsMoveTheAction(c, checks, t0);
  }

  /** Nobody is selected within the ping timeout, and every check more than a minute after it selects. */
  lemma SelectionWindow(c: ClientRec, checks: seq<Time>, t0: Time, i: nat)
    requires SilentSince(c, t0) && i < |checks|
    ensures Selected(c, checks, i) ==> checks[i] > t0 + PING_TIMEOUT
    ensures checks[i] > t0 + PING_TIMEOUT + PING_CHECK_IDLE ==> Selected(c, checks, i)
  {
    PingsMoveTheAction(c, checks[..i], t0);
  }

  ghost predicate AtMostApart(checks: seq<Time>, t0: Time, d: int) {
    && (checks != [] ==> checks[0] <= t0 + d)
    && forall i :: 0 <= i < |checks| - 1 ==> checks[i] <= checks[i + 1] <= checks[i] + d
  }

  lemma FirstLate(checks: seq<Time>, t0: Time, d: int) returns (i: nat)
    requires AtMostApart(checks, t0, d) && checks != [] && checks[|checks| - 1] > t0 + 240 * SECOND
    ensures i < |checks| && t0 + 240 * SECOND < checks[i] <= t0 + 240 * SECOND + d
  {
    i := |checks| - 1;
    while i > 0 && checks[i - 1] > t0 + 240 * SECOND
      invariant i < |checks| && checks[i] > t0 + 240 * SECOND
    {
      i := i - 1;
    }
    if i > 0 {
      assert checks[i] <= checks[i - 1] + d;
    }
  }

  /** With checks at most `d` apart, the client is selected at most `d` after T0 + 240 s. */
  lemma SelectedSoon(c: ClientRec, checks: seq<Time>, t0: Time, d: int) returns (i: nat)
    requires SilentSince(c, t0) && AtMostApart(checks, t0, d)
    requires checks != [] && checks[|checks| - 1] > t0 + 240 * SECOND
    ensures i < |checks| && Selected(c, checks, i) && t0 + 180 * SECOND < checks[i] <= t0 + 240 * SECOND + d
  {
    i := FirstLate(checks, t0, d);
    SelectionWindow(c, checks, t0, i);
  }

  lemma OneMore(c: ClientRec, checks: seq<Time>, now: Time)
    ensures After(c, []) == c && Pings(c, []) == 0
    ensures After(c, checks + [now]) == Checked(After(c, checks), now)
    ensures Pings(c, checks + [now]) == Pings(c, checks) + if NeedsPing(After(c, checks), now) then 1 else 0
  {
    assert (checks + [now])[..|checks|] == checks;
  }

  /** The bound is reached: with two well-placed pings the purge comes exactly `d` after T0 + 240 s. */
  lemma SelectedAsLateAs(c: ClientRec, t0: Time, d: int)
    requires SilentSince(c, t0) && d >= 100 * SECOND
    ensures var checks := [t0 + 100 * SECOND, t0 + 180 * SECOND, t0 + 240 * SECOND, t0 + 240 * SECOND + d];
            AtMostApart(checks, t0, d) && Pings(c, checks) == 2
            && Selected(c, checks, 3) && forall i :: 0 <= i < 3 ==> !Selected(c, checks, i)
  {
    var a, b, e, z := t0 + 100 * SECOND, t0 + 180 * SECOND, t0 + 240 * SECOND, t0 + 240 * SECOND + d;
    assert [a, b, e, z][..3] == [a, b, e] && [a, b, e, z][..2] == [a, b] && [a, b, e, z][..1] == [a];
    assert [] + [a] == [a] && [a] + [b] == [a, b] && [a, b] + [e] == [a, b, e] && [a, b, e] + [z] == [a, b, e, z];
    OneMore(c, [], a);
    OneMore(c, [a], b);
    OneMore(c, [a, b], e);
    OneMore(c, [a, b, e], z);
    assert [a, b, e, z][..0] == [];
    hide After, Pings;
  }

  /** The checks of the health task: the first within 50 s, then one every 50 s. */
  function Regular(first: Time, n: nat): (checks: seq<Time>)
    ensures |checks| == n && forall i :: 0 <= i < n ==> checks[i] == first + 50 * i * SECOND
  {
    if n == 0 then [] else Regular(first, n - 1) + [first + 50 * (n - 1) * SECOND]
  }

  lemma RegularPrefix(first: Time, n: nat, k: nat)
    requires k <= n
    ensures Regular(first, n)[..k] == Regular(first, k)
  {
  }

  /** With a check every 50 s the client is selected by T0 + 280 s. */
  lemma RegularBound(c: ClientRec, t0: Time, first: Time) returns (i: nat)
    requires SilentSince(c, t0) && t0 <= first <= t0 + 50 * SECOND
    ensures i < 6 && Selected(c, Regular(first, 6), i)
    ensures t0 + 180 * SECOND < Regular(first, 6)[i] <= t0 + 280 * SECOND
  {
    RegularRecords(c, first);
    var o := first - t0;
    i := if o <= 10 * SECOND then 4 else if o <= 30 * SECOND then 5 else 3;
    RegularPrefix(first, 6, i);
  }

  /** One more regular check. */
  lemma NextRecord(c: ClientRec, first: Time, n: nat)
    ensures After(c, Regular(first, n + 1)) == Checked(After(c, Regular(first, n)), first + 50 * n * SECOND)
  {
    hide Checked;
    var s := Regular(first, n + 1);
    assert s[..|s| - 1] == Regular(first, n) && s[|s| - 1] == first + 50 * n * SECOND;
  }

  /** What regular checks make of a record, one after the other. */
  lemma RegularRecords(c: ClientRec, first: Time)
    ensures After(c, Regular(first, 0)) == c
    ensures forall n :: 0 <= n < 5 ==>
              After(c, Regular(first, n + 1)) == Checked(After(c, Regular(first, n)), first + 50 * n * SECOND)
  {
    hide Checked, Regular;
    forall n | 0 <= n < 5
      ensures After(c, Regular(first, n + 1)) == Checked(After(c, Regular(first, n)), first + 50 * n * SECOND)
    {
      NextRecord(c, first, n);
    }
  }

  /** And no earlier bound holds: with the first check after 30 s it is selected at T0 + 280 s. */
  lemma RegularBoundTight(c: ClientRec, t0: Time)
    requires SilentSince(c, t0)
    ensures var checks := Regular(t0 + 30 * SECOND, 6);
            && Selected(c, checks, 5) && checks[5] == t0 + 280 * SECOND
            && forall i :: 0 <= i < 5 ==> !Selected(c, checks, i)
  {
    var f := t0 + 30 * SECOND;
    RegularRecords(c, f);
    forall i | 0 <= i < 6 ensures Regular(f, 6)[..i] == Regular(f, i) {
      RegularPrefix(f, 6, i);
    }
    var r0, r1, r2 := After(c, Regular(f, 0)), After(c, Regular(f, 1)), After(c, Regular(f, 2));
    var r3, r4, r5 := After(c, Regular(f, 3)), After(c, Regular(f, 4)), After(c, Regular(f, 5));
    assert r1 == Checked(r0, f + 50 * 0 * SECOND) == c;
    assert r2 == Checked(r1, f + 50 * 1 * SECOND) == c.(lastAction := t0 + 80 * SECOND);
    assert r3 == Checked(r2, f + 50 * 2 * SECOND) == r2;
    assert r4 == Checked(r3, f + 50 * 3 * SECOND) == c.(lastAction := t0 + 180 * SECOND);
    assert r5 == Checked(r4, f + 50 * 4 * SECOND) == r4;
  }

  // The timer in runs

  predicate SameStamps(a: ClientRec, b: ClientRec) {
    a.lastPing == b.lastPing && a.lastAction == b.lastAction
  }

  lemma SameStampsChecked(a: ClientRec, b: ClientRec, now: Time)
    requires SameStamps(a, b)
    ensures SameStamps(Checked(a, now), Checked(b, now)) && (Expired(a, now) <==> Expired(b, now))
    ensures NeedsPing(a, now) <==> NeedsPing(b, now)
  {
  }

  predicate ByOther(op: Op, id: Uuid) {
    op.Issue? ==> op.id != id
  }

  /** A step that is not the client's own leaves its record alone, apart from what a health check does to it;
      and nobody comes back under a used id. */
  lemma SilentStep(s: State, op: Op, id: Uuid)
    requires Inv(s) && Legal(s, op) && CanAct(s, op) && id in s.issued && ByOther(op, id)
    ensures id in Apply(s, op).issued && (id in Apply(s, op).clients ==> id in s.clients)
    ensures id in Apply(s, op).clients ==>
              SameStamps(Apply(s, op).clients[id], if op.Check? then Checked(s.clients[id], op.now) else s.clients[id])
    ensures op.Check? && id in s.clients ==> (id in Apply(s, op).clients <==> !Expired(s.clients[id], op.now))
  {
    var t := Apply(s, op);
    hide Inv, Evolves, Legal, CanAct, Apply, DeltaOf, Checked, Expired;
    StepKeeps(s, op);
    StillThere(DeltaOf(s, op), s, t, id);
    if op.Check? {
      CheckParts(s, op);
    } else {
      NotInvolved(s, op, id);
    }
  }

  lemma CheckParts(s: State, op: Op)
    requires Inv(s) && Legal(s, op) && op.Check?
    ensures Apply(s, op).clients == CheckAll(s.clients, op.now) - ExpiredIn(s, op.now)
  {
    hide Inv, Evolves, HealthCheck, Plans, ClockOk;
    CheckKeeps(s, op.now, op.plan);
  }

  lemma StillThere(d: Delta, s: State, t: State, id: Uuid)
    requires Evolves(d, s, t) && id in s.issued
    ensures id in t.issued && (id in t.clients ==> id in s.clients)
    ensures id in t.clients && id !in d.who ==> t.clients[id] == s.clients[id].(channels := t.clients[id].channels)
  {
  }

  lemma NotInvolved(s: State, op: Op, id: Uuid)
    requires id in s.issued && Legal(s, op) && ByOther(op, id) && !op.Check?
    ensures id !in DeltaOf(s, op).who
  {
    hide LegalCommand, ClockOk;
  }

  /** The times of the health checks among the steps i..j of a run. */
  function ChecksIn(r: Run, i: nat, j: nat): seq<Time>
    requires i <= j <= |r.ops|
  {
    if i == j then []
    else ChecksIn(r, i, j - 1) + if r.ops[j - 1].Check? then [r.ops[j - 1].now] else []
  }

  ghost predicate SilentIn(r: Run, i: nat, j: nat, id: Uuid) {
    forall k :: i <= k < j && k < |r.ops| ==> ByOther(r.ops[k], id)
  }

  lemma AfterNext(c: ClientRec, checks: seq<Time>, now: Time)
    ensures After(c, checks + [now]) == Checked(After(c, checks), now)
  {
    hide Checked;
    assert (checks + [now])[..|checks|] == checks;
  }

  /** In a run, the record of a silent client is what the health checks make of it. */
  lemma {:induction false} RecordFollowsChecks(r: Run, i: nat, j: nat, id: Uuid)
    requires IsRun(r) && i <= j < |r.states| && id in r.states[i].clients && SilentIn(r, i, j, id)
    ensures id in r.states[j].issued
    ensures id in r.states[j].clients ==>
              SameStamps(r.states[j].clients[id], After(r.states[i].clients[id], ChecksIn(r, i, j)))
  {
    hide Inv, Settled, Legal, Apply, CanAct, Evolves, Checked;
    if i == j {
      RunKeeps(r, i);
      IdIssued(r.states[i], id);
    } else {
      var s, op := r.states[j - 1], r.ops[j - 1];
      RecordFollowsChecks(r, i, j - 1, id);
      RunStep(r, j - 1);
      SilentStep(s, op, id);
      assert ChecksIn(r, i, j) == if op.Check? then ChecksIn(r, i, j - 1) + [op.now] else ChecksIn(r, i, j - 1);
      if id in r.states[j].clients && op.Check? {
        var a := After(r.states[i].clients[id], ChecksIn(r, i, j - 1));
        AfterNext(r.states[i].clients[id], ChecksIn(r, i, j - 1), op.now);
        SameStampsChecked(s.clients[id], a, op.now);
      }
    }
  }

  /** A connection that is not banned counts as active from its first moment on. */
  lemma NewcomerIsActive(s: State, id: Uuid, ip: Ip, name: string, now: Time)
    requires forall i :: 0 <= i < |s.bans| ==> s.bans[i].ip != ip
    ensures var t := Apply(s, Connect(id, ip, name, now));
            && id in t.clients && SilentSince(t.clients[id], now)
            && t.clients[id].status == PendingAuth && t.clients[id].ip == ip && t.clients[id].channels == {}
  {
  }

  // The messages

  lemma {:induction false} QuitsAreNoPings(s: State, id: Uuid, order: seq<Uuid>, text: string, discreet: bool, r: Uuid)
    requires id in s.clients
    ensures PingCount(QuitsTo(s, id, order, text, discreet, r)) == 0
  {
    hide Hears;
    if order != [] {
      var c := order[|order| - 1];
      var last := if Hears(s, id, c, discreet, r) then [Quit(c, id, s.clients[id].name, text)] else [];
      QuitsAreNoPings(s, id, order[..|order| - 1], text, discreet, r);
      PingsConcat(QuitsTo(s, id, order[..|order| - 1], text, discreet, r), last);
      assert PingCount(last) == 0;
    }
  }

  lemma {:induction false} PurgesAreNoPings(s: State, plan: seq<Victim>, r: Uuid)
    ensures PingCount(PurgeMail(s, plan, r)) == 0
  {
    hide QuitsTo;
    if plan != [] {
      var n, v := |plan| - 1, plan[|plan| - 1];
      PurgesAreNoPings(s, plan[..n], r);
      if v.id in s.clients && !exists i :: 0 <= i < n && plan[i].id == r {
        QuitsAreNoPings(s, v.id, v.order, "ping timeout: 180 seconds", false, r);
        PingsConcat(PurgeMail(s, plan[..n], r), QuitsTo(s, v.id, v.order, "ping timeout: 180 seconds", false, r));
      } else {
        PingsConcat(PurgeMail(s, plan[..n], r), []);
      }
    }
  }

  lemma CheckPings(s: State, now: Time, plan: seq<Victim>, id: Uuid)
    requires Inv(s) && Legal(s, Check(now, plan))
    ensures PingCount(Box(Apply(s, Check(now, plan)).outbox, id)) ==
            PingCount(Box(s.outbox, id)) + if id in s.clients && NeedsPing(s.clients[id], now) then 1 else 0
  {
    var t := Apply(s, Check(now, plan));
    var own := if id !in s.clients || s.clients[id].lastAction >= now - 60 * SECOND
                  || s.clients[id].lastPing >= now - 60 * SECOND then []
               else if s.clients[id].lastPing < now - 180 * SECOND then [PingTimeout] else [Ping(now)];
    assert PingCount(own) == if id in s.clients && NeedsPing(s.clients[id], now) then 1 else 0;
    hide *;
    CheckEffect(s, now, plan, id);
    PurgesAreNoPings(s, plan, id);
    PingsConcat(Box(s.outbox, id), own);
    PingsConcat(Box(s.outbox, id) + own, PurgeMail(s, plan, id));
  }

  /** A step that is not the client's own sends it a ping exactly if it is a health check that finds it idle. */
  lemma PingStep(s: State, op: Op, id: Uuid)
    requires Inv(s) && Legal(s, op) && CanAct(s, op) && id in s.issued && ByOther(op, id)
    ensures PingCount(Box(Apply(s, op).outbox, id)) ==
            PingCount(Box(s.outbox, id)) +
            if op.Check? && id in s.clients && NeedsPing(s.clients[id], op.now) then 1 else 0
  {
    hide *;
    if op.Check? {
      CheckPings(s, op.now, op.plan, id);
    } else {
      StepKeeps(s, op);
      NotInvolved(s, op, id);
      UnpingedOf(DeltaOf(s, op), s, Apply(s, op), id);
    }
  }

  lemma UnpingedOf(d: Delta, s: State, t: State, id: Uuid)
    requires Evolves(d, s, t) && id !in d.who
    ensures PingCount(Box(t.outbox, id)) == PingCount(Box(s.outbox, id))
  {
    hide TextsKept, AddressesKept, ClientsEvolve, ChannelsEvolve, PingCount;
  }

  /** In a run, the pings that a silent client was sent while it is registered are those of its record. */
  lemma {:induction false} PingMessages(r: Run, i: nat, j: nat, id: Uuid)
    requires IsRun(r) && i <= j < |r.states| && id in r.states[i].clients && SilentIn(r, i, j, id)
    ensures id in r.states[j].clients ==>
              PingCount(Box(r.states[j].outbox, id)) ==
              PingCount(Box(r.states[i].outbox, id)) + Pings(r.states[i].clients[id], ChecksIn(r, i, j))
  {
    hide Inv, Settled, Legal, Apply, CanAct, Evolves, Checked, NeedsPing, Start, PingCount;
    if i < j && id in r.states[j].clients {
      var s, op, c := r.states[j - 1], r.ops[j - 1], r.states[i].clients[id];
      var before := ChecksIn(r, i, j - 1);
      PingMessages(r, i, j - 1, id);
      RecordFollowsChecks(r, i, j - 1, id);
      RunStep(r, j - 1);
      SilentStep(s, op, id);
      PingStep(s, op, id);
      assert ChecksIn(r, i, j) == if op.Check? then before + [op.now] else before;
      if op.Check? {
        SameStampsChecked(s.clients[id], After(c, before), op.now);
        OneMore(c, before, op.now);
      }
    }
  }

  /** And it is sent two at most, whether it is still registered or gone. */
  lemma {:induction false} TwoPingMessages(r: Run, i: nat, j: nat, id: Uuid, t0: Time)
    requires IsRun(r) && i <= j < |r.states| && id in r.states[i].clients && SilentIn(r, i, j, id)
    requires SilentSince(r.states[i].clients[id], t0)
    ensures PingCount(Box(r.states[j].outbox, id)) <= PingCount(Box(r.states[i].outbox, id)) + 2
  {
    hide Inv, Settled, Legal, Apply, CanAct, Evolves, Checked, Expired, NeedsPing, Start, PingCount, SilentSince;
    if id in r.states[j].clients {
      PingMessages(r, i, j, id);
      AtMostTwoPings(r.states[i].clients[id], ChecksIn(r, i, j), t0);
    } else if i < j {
      var s, op := r.states[j - 1], r.ops[j - 1];
      TwoPingMessages(r, i, j - 1, id, t0);
      RecordFollowsChecks(r, i, j - 1, id);
      RunStep(r, j - 1);
      SilentStep(s, op, id);
      PingStep(s, op, id);
      if op.Check? && id in s.clients {
        ExpiredUnpinged(s.clients[id], op.now);
      }
    }
  }

  lemma ExpiredUnpinged(c: ClientRec, now: Time)
    ensures Expired(c, now) ==> !NeedsPing(c, now)
  {
  }

  lemma ChecksHold(r: Run, i: nat, k: nat, j: nat)
    requires i <= k < j <= |r.ops| && r.ops[k].Check?
    ensures |ChecksIn(r, i, k)| < |ChecksIn(r, i, j)| && ChecksIn(r, i, j)[|ChecksIn(r, i, k)|] == r.ops[k].now
    ensures ChecksIn(r, i, j)[..|ChecksIn(r, i, k)|] == ChecksIn(r, i, k)
  {
    if j > k + 1 {
      ChecksHold(r, i, k, j - 1);
      var a, b := ChecksIn(r, i, j - 1), ChecksIn(r, i, j);
      assert b[..|a|] == a;
      assert b[..|ChecksIn(r, i, k)|] == a[..|ChecksIn(r, i, k)|];
    }
  }

  /** A silent client leaves the server in a health check exactly if that check selects it: never within 180 s of its
      last command, and always if the check comes more than 240 s after it. */
  lemma SilentClientPurged(r: Run, i: nat, k: nat, id: Uuid, t0: Time)
    requires IsRun(r) && i <= k < |r.ops| && id in r.states[i].clients && SilentSince(r.states[i].clients[id], t0)
    requires SilentIn(r, i, k, id) && r.ops[k].Check? && id in r.states[k].clients
    ensures id !in r.states[k + 1].clients ==> r.ops[k].now > t0 + 180 * SECOND
    ensures r.ops[k].now > t0 + 240 * SECOND ==> id !in r.states[k + 1].clients
    ensures Pings(r.states[i].clients[id], ChecksIn(r, i, k)) <= 2
  {
    var c, s, op := r.states[i].clients[id], r.states[k], r.ops[k];
    assert ByOther(op, id);
    hide Inv, Settled, Legal, Apply, CanAct, Evolves, Checked, Expired;
    RecordFollowsChecks(r, i, k, id);
    RunStep(r, k);
    SilentStep(s, op, id);
    var before := ChecksIn(r, i, k);
    SameStampsChecked(s.clients[id], After(c, before), op.now);
    SelectionWindow(c, before + [op.now], t0, |before|);
    assert (before + [op.now])[..|before|] == before;
    AtMostTwoPings(c, before, t0);
  }

  /** After a health check later than T0 + 240 s, a client that stays silent is no longer registered. */
  lemma SilentClientGone(r: Run, i: nat, k: nat, j: nat, id: Uuid, t0: Time)
    requires IsRun(r) && i <= k < j < |r.states| && id in r.states[i].clients
             && SilentSince(r.states[i].clients[id], t0)
    requires SilentIn(r, i, j, id) && r.ops[k].Check? && r.ops[k].now > t0 + 240 * SECOND
    ensures id !in r.states[j].clients
  {
    assert |r.states| == |r.ops| + 1;
    hide IsRun, SilentSince;
    if id in r.states[j].clients {
      NeverBack(r, i, k, j, id);
      NeverBack(r, i, k + 1, j, id);
      SilentClientPurged(r, i, k, id, t0);
    }
  }

  /** The step of the n-th health check. */
  lemma {:induction false} CheckAt(r: Run, i: nat, j: nat, n: nat) returns (k: nat)
    requires i <= j <= |r.ops| && n < |ChecksIn(r, i, j)|
    ensures i <= k < j && r.ops[k].Check? && r.ops[k].now == ChecksIn(r, i, j)[n]
    ensures |ChecksIn(r, i, k)| == n
  {
    if r.ops[j - 1].Check? && n == |ChecksIn(r, i, j - 1)| {
      k := j - 1;
    } else {
      k := CheckAt(r, i, j - 1, n);
    }
  }

  lemma {:induction false} ChecksAscend(checks: seq<Time>, t0: Time, d: int, m: nat, n: nat)
    requires AtMostApart(checks, t0, d) && m <= n < |checks|
    ensures checks[m] <= checks[n]
  {
    if m < n {
      ChecksAscend(checks, t0, d, m, n - 1);
    }
  }

  lemma FewerChecks(r: Run, i: nat, m: nat, k: nat)
    requires i <= m <= k <= |r.ops|
    ensures |ChecksIn(r, i, m)| <= |ChecksIn(r, i, k)|
  {
    if m < k {
      FewerChecks(r, i, m, k - 1);
    }
  }

  /** In a run whose health checks are at most `d` apart, a client that stays silent is gone by T0 + 240 s + d: the
      check in step k comes in time, afterwards the client is not registered, and whichever check removed it did so
      after T0 + 180 s and by T0 + 240 s + d. */
  lemma SilentClientGoneInTime(r: Run, i: nat, j: nat, id: Uuid, t0: Time, d: int) returns (k: nat)
    requires IsRun(r) && i <= j < |r.states| && id in r.states[i].clients && SilentSince(r.states[i].clients[id], t0)
    requires SilentIn(r, i, j, id) && AtMostApart(ChecksIn(r, i, j), t0, d)
    requires ChecksIn(r, i, j) != [] && ChecksIn(r, i, j)[|ChecksIn(r, i, j)| - 1] > t0 + 240 * SECOND
    ensures i <= k < j && r.ops[k].Check? && t0 + 180 * SECOND < r.ops[k].now <= t0 + 240 * SECOND + d
    ensures id !in r.states[k + 1].clients
    ensures forall m :: i <= m < j && r.ops[m].Check? && id in r.states[m].clients && id !in r.states[m + 1].clients
              ==> t0 + 180 * SECOND < r.ops[m].now <= t0 + 240 * SECOND + d
  {
    var checks := ChecksIn(r, i, j);
    var n := FirstLate(checks, t0, d);
    k := CheckAt(r, i, j, n);
    assert |r.states| == |r.ops| + 1;
    hide IsRun, SilentSince, ChecksIn;
    SilentClientGone(r, i, k, k + 1, id, t0);
    forall m | i <= m < j && r.ops[m].Check? && id in r.states[m].clients && id !in r.states[m + 1].clients
      ensures t0 + 180 * SECOND < r.ops[m].now <= t0 + 240 * SECOND + d
    {
      SilentClientPurged(r, i, m, id, t0);
      if m > k {
        NeverBack(r, i, k + 1, m, id);
      } else {
        ChecksHold(r, i, m, j);
        FewerChecks(r, i, m, k);
        ChecksAscend(checks, t0, d, |ChecksIn(r, i, m)|, n);
      }
    }
  }

  lemma {:induction false} NeverBack(r: Run, i: nat, k: nat, j: nat, id: Uuid)
    requires IsRun(r) && i <= k <= j < |r.states| && id in r.states[i].clients && SilentIn(r, i, j, id)
    requires id in r.states[j].clients
    ensures id in r.states[k].clients
  {
    hide Inv, Settled, Legal, Apply, CanAct, Evolves, Checked, Expired;
    if k < j {
      RecordFollowsChecks(r, i, j - 1, id);
      RunStep(r, j - 1);
      SilentStep(r.states[j - 1], r.ops[j - 1], id);
      NeverBack(r, i, k, j - 1, id);
    }
  }

  /** In every reachable state the last command is not later than the last sign of activity. */
  lemma PingBeforeAction(r: Run, i: nat, id: Uuid)
    requires IsRun(r) && i < |r.states| && id in r.states[i].clients
    ensures r.states[i].clients[id].lastPing <= r.states[i].clients[id].lastAction
  {
    hide Inv, Settled;
    RunKeeps(r, i);
    StandingAt(r.states[i], id);
  }

  /** A command of a registered client sets both of its timestamps to the time of the command. */
  lemma CommandStamps(s: State, id: Uuid, cmd: Command, x: Chance)
    requires Inv(s) && Legal(s, Issue(id, cmd, x)) && CanAct(s, Issue(id, cmd, x)) && id in s.clients
    requires id in Apply(s, Issue(id, cmd, x)).clients
    ensures SilentSince(Apply(s, Issue(id, cmd, x)).clients[id], x.now)
  {
    var u := Touch(s, id, x.now);
    hide Inv, Evolves, Handle, LegalCommand, CommandDelta, Intrudes, Apply, Touch, Legal, CanAct;
    TouchedSame(s, id, cmd, x);
    TouchKeeps(s, id, x.now);
    LegalAfterTouch(s, id, cmd, x);
    if u.clients[id].status == PendingAuth {
      LoginStamps(u, id, cmd, x);
    } else {
      CommandKeeps(u, id, cmd, x);
      CommandDeltaIs(u, id, cmd, x);
      StatusKept(CommandDelta(u, id, cmd, x), u, Handle(u, id, cmd, x), id);
    }
  }

  lemma LobbyStamps(s: State, id: Uuid, use: bool, lobby: Option<Uuid>)
    requires id in s.clients
    ensures SameStamps(EnterLobby(s, id, use, lobby).clients[id], s.clients[id])
  {
    hide Enter;
    if use && lobby.Some? && lobby.value in s.channels {
      EnterChannels(s, id, lobby.value, true);
    }
  }

  lemma SignedInStamps(s: State, id: Uuid, name: string, kind: ClientType, options: set<Power>,
                       g: bool, global: Option<Uuid>, l: bool, local: Option<Uuid>)
    requires id in s.clients
    ensures var t := EnterLobby(EnterLobby(SignIn(s, id, name, kind, options), id, g, global), id, l, local);
            SameStamps(t.clients[id], s.clients[id])
  {
    var u := SignIn(s, id, name, kind, options);
    assert SameStamps(u.clients[id], s.clients[id]);
    hide EnterLobby, SignIn;
    LobbyStamps(u, id, g, global);
    LobbyStamps(EnterLobby(u, id, g, global), id, l, local);
  }

  lemma LoginStamps(s: State, id: Uuid, cmd: Command, x: Chance)
    requires Inv(s) && id in s.clients && LegalCommand(s, id, cmd, x) && s.clients[id].status == PendingAuth
    requires id in Handle(s, id, cmd, x).clients
    ensures SameStamps(Handle(s, id, cmd, x).clients[id], s.clients[id])
  {
    hide Inv, EnterLobby, SignIn, T.ClientName, NameTaken, Enumerates, ExactLookup, TearAll;
    match cmd
    case GuestLogin(username) =>
      SignedInStamps(s, id, GuestName(username, x.guestName), Guest, s.conf.guestOptions,
                     s.conf.useGlobal, x.global, s.conf.useGuest, x.local);
    case AgentLogin(nickname, permissions) =>
      if permissions.Some? {
        SignedInStamps(s, id, nickname, Agent, permissions.value, s.conf.useGlobal, x.global, s.conf.useStaff, x.local);
      }
    case _ =>
  }
}
