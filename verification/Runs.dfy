/** Runs of the machine from startup, and what holds in every state of every run. */
module Runs {
  import opened Basics
  import opened Uuids
  import opened Machine
  import opened Invariants
  import opened Steps
  import M = Modes
  import T = Text

  datatype Run = Run(setup: Setup, states: seq<State>, ops: seq<Op>)

  /** A run starts with the default channels and takes legal steps. */
  ghost predicate IsRun(r: Run) {
    && SetupFine(r.setup)
    && |r.states| == |r.ops| + 1
    && r.states[0] == Start(r.setup)
    && forall i :: 0 <= i < |r.ops| ==> Legal(r.states[i], r.ops[i]) && r.states[i + 1] == Apply(r.states[i], r.ops[i])
  }

  predicate SetupFine(u: Setup) {
    u.global != NIL && u.staff != NIL && u.guest != NIL && u.global != u.staff && u.global != u.guest
      && u.staff != u.guest
  }

  lemma StartKeeps(u: Setup)
    requires SetupFine(u)
    ensures Inv(Start(u)) && Settled(Start(u), {})
  {
    LobbyTopics();
    hide T.ClientName, T.BracketFree;
    StartChannels(u);
  }

  lemma LobbyTopics()
    ensures TopicFine(Some(GLOBAL_TOPIC)) && TopicFine(Some(STAFF_TOPIC))
  {
    assert T.BracketFree("InvenT chatd v" + VERSION + " (unreleased) - ")
      && T.BracketFree("imightanswer@clearchat.club");
  }

  /** The default lobbies: each belongs to nobody, is empty, persists and cannot be left by guests; the Staff Lobby is
      for agents only, and the Guest Lobby keeps no history. */
  lemma LobbiesAtStart(u: Setup, c: Uuid)
    requires SetupFine(u)
    ensures var s := Start(u);
            && s.clients == map[] && s.outbox == map[] && s.bans == u.bans && s.conf == u.conf
            && (c in s.channels <==>
                  || (u.conf.useGlobal && c == u.global)
                  || (u.conf.useStaff && c == u.staff)
                  || (u.conf.useGuest && c == u.guest))
            && (c in s.channels ==>
                  var ch := s.channels[c];
                  && ch.id == c && ch.owner == None && ch.members == map[]
                  && ch.name == (if c == u.global then "Global Lobby" else if c == u.staff then "Staff Lobby"
                                 else "Guest Lobby")
                  && ch.topic == (if c == u.global then
                                    Some("InvenT chatd v" + "0.14.0-beta" + " (unreleased) - " +
                                         "imightanswer@clearchat.club")
                                  else if c == u.staff then Some("DO NOT GIVE OUT YOUR PASSWORDS") else None)
                  && (forall f: M.Flag :: f in ch.options <==>
                        || f == M.Persist || f == M.RejoinClients || f == M.CanNotLeave
                        || (f == M.SaveHistory && c != u.guest)
                        || (f == M.AgentOnly && c == u.staff)))
  {
  }

  lemma StartChannels(u: Setup)
    requires SetupFine(u)
    ensures ChannelIds(Start(u).channels, Start(u).issued) && Topics(Start(u).channels) && Start(u).clients == map[]
    ensures forall c :: c in Start(u).channels ==>
              Start(u).channels[c].members == map[] && Start(u).channels[c].owner == None
  {
    LobbyTopics();
    hide T.BracketFree, TopicFine;
    TopicNone();
  }

  lemma TopicNone()
    ensures TopicFine(None)
  {
  }

  /** Outside the exempted ids every client stays settled. */
  lemma SettledKeeps(s: State, op: Op, except: set<Uuid>)
    requires Inv(s) && Legal(s, op) && CanAct(s, op) && Settled(s, except)
    ensures Settled(Apply(s, op), except)
  {
    var t := Apply(s, op);
    hide Inv, Evolves, Handle, HealthCheck, Disconnect, Legal, Enumerates;
    match op
    case Connect(id, ip, name, now) =>
    case Issue(id, cmd, x) =>
      if id in s.clients {
        IssueKeeps(s, id, cmd, x);
        forall k | k in t.clients && k != id ensures k in except || t.clients[k].status in {PendingAuth, Connected} {
          OthersStatus(DeltaOf(s, op), s, t, k);
        }
      }
    case ReadError(id, _, _) =>
      StepKeeps(s, op);
      forall k | k in t.clients ensures k in except || t.clients[k].status in {PendingAuth, Connected} {
        OthersStatus(DeltaOf(s, op), s, t, k);
      }
    case Check(now, plan) =>
      CheckKeeps(s, now, plan);
  }

  lemma OthersStatus(d: Delta, s: State, t: State, k: Uuid)
    requires Evolves(d, s, t) && k in t.clients && k !in d.who
    ensures k in s.clients && t.clients[k].status == s.clients[k].status
  {
  }

  lemma SettledActs(s: State, op: Op, except: set<Uuid>)
    requires Inv(s) && Settled(s, except) && (op.Issue? ==> op.id !in except)
    ensures CanAct(s, op)
  {
    hide Inv;
    if op.Issue? && op.id in s.clients {
      StandingAt(s, op.id);
    }
  }

  /** The invariant holds in every state of every run. */
  lemma {:induction false} RunKeeps(r: Run, i: nat)
    requires IsRun(r) && i < |r.states|
    ensures Inv(r.states[i]) && Settled(r.states[i], {})
  {
    hide Inv, Legal, Apply, Start, Settled;
    if i == 0 {
      StartKeeps(r.setup);
    } else {
      RunKeeps(r, i - 1);
      SettledActs(r.states[i - 1], r.ops[i - 1], {});
      StepKeeps(r.states[i - 1], r.ops[i - 1]);
      SettledKeeps(r.states[i - 1], r.ops[i - 1], {});
    }
  }

  /** One step of a run, with its change relation. */
  lemma RunStep(r: Run, i: nat)
    requires IsRun(r) && i < |r.ops|
    ensures var s, op := r.states[i], r.ops[i];
            && Inv(s) && Settled(s, {}) && Legal(s, op) && CanAct(s, op) && r.states[i + 1] == Apply(s, op)
            && Inv(Apply(s, op)) && Evolves(DeltaOf(s, op), s, Apply(s, op))
  {
    hide Inv, Legal, Apply, Settled, Evolves, CanAct;
    RunKeeps(r, i);
    SettledActs(r.states[i], r.ops[i], {});
    StepKeeps(r.states[i], r.ops[i]);
  }
}
