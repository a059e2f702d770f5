/** Channel modes end to end: the browser's settings dialog, the mode command and the channel. */
module Settings {
  import opened Uuids
  import opened Messages
  import opened Machine
  import opened Invariants
  import opened Steps
  import opened Registry
  import M = Modes

  /** Opening the dialog on the labels the server sent and saving it unchanged is a command without any effect:
      no mode changes and nothing is sent. */
  lemma SavingUnchangedIsSilent(s: State, actor: Uuid, cid: Uuid)
    requires actor in s.clients && cid in s.channels && Owns(s.channels[cid], s.clients[actor])
    ensures SetModes(s, actor, cid, M.WordOf(M.OpenDialog(M.Labels(s.channels[cid].options)))) == s
  {
    var options := s.channels[cid].options;
    M.DialogShowsModes(options);
    M.WordRoundTrip(options, 0);
    hide M.Labels, M.OpenDialog, M.FlagsOf, M.WordOf;
    assert M.Merge(options, options) == options;
  }

  lemma ModesParts(s: State, actor: Uuid, cid: Uuid, modes: M.U64)
    requires actor in s.clients && cid in s.channels && Owns(s.channels[cid], s.clients[actor])
    ensures var ch := s.channels[cid];
            SetModes(s, actor, cid, modes).channels ==
              s.channels[cid := ch.(options := ModesAfter(ch, s.clients[actor], modes))]
  {
    hide M.Labels, M.FlagsOf, M.Merge, Deliver;
    assert s.channels[cid := s.channels[cid]] == s.channels;
  }

  /** Saving other boxes has an effect exactly if the saver may change a box that differs. */
  lemma SavingChanges(s: State, actor: Uuid, cid: Uuid, boxes: M.Options)
    requires actor in s.clients && cid in s.channels && Owns(s.channels[cid], s.clients[actor])
    ensures var t, before := SetModes(s, actor, cid, M.WordOf(boxes)), s.channels[cid].options;
            && (t.channels != s.channels <==>
                  exists f :: (f in boxes <==> f !in before) && (s.clients[actor].kind == Agent || f in M.PUBLIC))
            && (forall f :: f in t.channels[cid].options <==>
                  if s.clients[actor].kind == Agent || f in M.PUBLIC then f in boxes else f in before)
  {
    M.WordRoundTrip(boxes, 0);
    var before, agent := s.channels[cid].options, s.clients[actor].kind == Agent;
    ModesParts(s, actor, cid, M.WordOf(boxes));
    ChangedBoxes(before, boxes, agent);
    hide M.Labels, M.FlagsOf, M.WordOf, M.Merge, Deliver, SetModes;
  }

  lemma ChangedBoxes(before: M.Options, boxes: M.Options, agent: bool)
    ensures var after := if agent then boxes else M.Merge(before, boxes);
            && (after != before <==> exists f :: (f in boxes <==> f !in before) && (agent || f in M.PUBLIC))
            && (forall f :: f in after <==> if agent || f in M.PUBLIC then f in boxes else f in before)
  {
    var after := if agent then boxes else M.Merge(before, boxes);
    if after != before {
      var f :| f in after <==> f !in before;
      assert (f in boxes <==> f !in before) && (agent || f in M.PUBLIC);
    }
  }

  /** The modes that owners cannot set only change by an agent's mode command. */
  lemma PrivateModesStay(s: State, op: Op, c: Uuid)
    requires Inv(s) && Legal(s, op) && CanAct(s, op)
    requires c in s.channels && c in Apply(s, op).channels
    requires Apply(s, op).channels[c].options - M.PUBLIC != s.channels[c].options - M.PUBLIC
    ensures SettingsStep(s, op, c) && op.cmd.ChangeModes? && s.clients[op.id].kind == Agent
  {
    var t := Apply(s, op);
    hide Inv, Evolves, Legal, CanAct, Apply, SettingsStep, DeltaOf;
    StepKeeps(s, op);
    if c !in DeltaOf(s, op).tuned {
      Untuned(DeltaOf(s, op), s, t, c);
    } else {
      TunedIsSettings(s, op, c);
      SettingsIsIssue(s, op, c);
      SettingsMeaning(s, op, c);
      MergeKeepsPrivate(s.channels[c].options);
    }
  }

  lemma MergeKeepsPrivate(before: M.Options)
    ensures forall requested :: M.Merge(before, requested) - M.PUBLIC == before - M.PUBLIC
  {
  }

  lemma Untuned(d: Delta, s: State, t: State, c: Uuid)
    requires Evolves(d, s, t) && c in s.channels && c in t.channels && c !in d.tuned
    ensures t.channels[c].options == s.channels[c].options
  {
    assert SameChannel(d, c, s.channels[c], t.channels[c]);
  }

  lemma SettingsIsIssue(s: State, op: Op, c: Uuid)
    requires SettingsStep(s, op, c)
    ensures op.Issue? && op.id in s.clients && s.clients[op.id].status != PendingAuth
    ensures (op.cmd.ChangeModes? && op.cmd.channel == c) || (op.cmd.ChangeTopic? && op.cmd.channel == c)
  {
  }
}
