# Verification of chatd

chatd is a chat server for browsers. Clients connect, log in as guests or agents, join and create channels, talk,
and leave by parting, by being kicked or killed, by a broken connection or by not answering pings. The server keeps a
registry of clients, a registry of channels, a member table of cloned clients in each channel, a list of channels in
each client, and a ban list. Each browser rebuilds the user list of its rooms from the messages it receives.

This project models that shared state and all handlers that change it, and proves what holds in every state of every
run, for all inputs.

## How the model is built

- `Machine.dfy` describes the server as a state machine on values: `State`, one function for each handler, `Apply` for a
  step, `Start` for startup. A handler is one atomic step, as commands are taken one by one from a queue
  (chatd/src/main.rs:168-196). HashMap iteration orders, name lookups with several candidates, the clock and new ids are
  arguments; `Legal` says what the environment may choose: each key once, any matching channel, ids never used before,
  a clock that is not behind a recorded timestamp.
- `Invariants.dfy`, `SmallSteps.dfy`, `Handlers.dfy`, `Steps.dfy` and `Runs.dfy` prove the invariant over all runs,
  together with a relation that bounds what each step may change. `Departure.dfy`, `Interleaved.dfy`, `Roster.dfy`,
  `Bans.dfy`, `Registry.dfy`, `Collection.dfy`, `Naming.dfy`, `Delivery.dfy`, `Idle.dfy`, `Settings.dfy`, `Page.dfy`,
  `Dialog.dfy` and `RoundTrips.dfy` hold the theorems. `Effects.dfy`, `Entries.dfy` and `Farewells.dfy` say for each
  command, read error and health check what the whole next state is, down to every outbox, without using the handlers'
  own functions. `Modes.dfy`, `Text.dfy` and `Uuids.dfy` deal with mode words, escaping and ids.
- `Client.dfy`, `Channel.dfy`, `Server.dfy`, `Commands.dfy`, `ChannelCommands.dfy`, `Joining.dfy`, `Service.dfy`,
  `Health.dfy`, `Dispatch.dfy` and `Browser.dfy` have the program's own form: objects whose methods update fields, with
  loops over tables in no particular order. Every handler is proved to be the machine's step on the state the objects
  represent (`Server.Abs`), with the orders and lookups it happened to take as legal choices. So the theorems about
  runs hold of the objects.

What follows the code rather than one's expectation:

- Parting never removes the channel from the client's own list (chatd/src/commands.rs:493-494), so that list is a
  superset of the memberships; teardown copes with stale entries.
- A kick never destroys an emptied channel (chatd/src/commands.rs:179-183). `Collection.CollectedStep` says exactly when
  empty channels stay behind; `Collection.KickStrands` is an instance.
- In a channel with hidden members or invisible, the future that would announce a part is dropped before it runs
  (chatd/src/channel.rs:211), so nobody is told.
- A ban command whose text is longer than 255 characters after escaping adds the ban but kills nobody
  (chatd/src/commands.rs:94-98). `Bans.KlineEnforces` gives the exact condition,
  `Bans.LongReasonSpares` an input.
- A join by an unknown id that is not of version 4 (section 5.4 of RFC 9562) creates a channel named like the id, even
  twice (chatd/src/commands.rs:632-645). `Naming.NilMakesTwins` is the example, `Naming.JoinByIdUnique` the condition.
- Logins put clients into the Global and the Guest Lobby without looking at AgentOnly (chatd/src/main.rs:479-517).
  `Registry.AgentsOnlyExactly` says exactly when this matters.
- A client that was marked closing or zombie before it was ever authenticated is no longer taken for one that must log in
  (chatd/src/main.rs:427, 601), so a join in its queue is carried out. `Steps.StepExactly` says that no other step
  breaks the invariant.
- The page compares its new mode word with a list of labels before sending (public_html/chat.js:647-649), so it
  practically always sends; the server then finds nothing to change.

## Model

| member | source | states |
|---|---|---|
| `Runs.RunKeeps` | chatd/src/main.rs:168-196 | In every state of every run from startup: each member of a registered channel is a registered, authenticated client whose own list names the channel and whose clone agrees with the registry; ids, names, topics and mail are as in `Invariants.Inv`; outside a teardown every client is pending or connected |
| `Steps.StepKeeps` | chatd/src/main.rs:420-651 | Every legal step, by clients of any status, keeps the invariant and changes no more than its delta: who may gain or lose memberships, which channels may appear, disappear or change settings, whether user texts are sent, and that only agents are shown addresses. The one exception is a join of an open channel by a client that was marked closing or zombie before it was ever authenticated |
| `Steps.StepExactly` | chatd/src/main.rs:601-650 | That join, which the dispatcher lets through because the status is no longer pending, breaks the invariant; no other legal step does |
| `Runs.StartKeeps` | chatd/src/server.rs:299-342 | The server after creating its default channels satisfies the invariant, for every configuration and ban list |
| `Runs.LobbiesAtStart` | chatd/src/server.rs:299-342 | Which lobbies there are at startup, with their names, topics and exactly their flags |
| `Departure.TeardownMeaning` | chatd/src/main.rs:309-344 | A teardown loop followed by unregistering gives exactly the registries of `Depart`, for every iteration order of the list and with stale entries |
| `Departure.DepartMeaning` | chatd/src/commands.rs:104-154 | Membership by membership: a channel goes exactly if it is in the list, not Persist and has no other member; everybody else keeps every membership and clone |
| `Departure.KillMeaning` | chatd/src/commands.rs:70-155 | A kill is that departure exactly when permitted, and otherwise changes neither registry |
| `Departure.DisconnectMeaning` | chatd/src/main.rs:309-344 | A read error is that departure |
| `Departure.PurgeMeaning` | chatd/src/main.rs:381-416 | A ping purge is that departure |
| `Departure.TeardownTwice` | chatd/src/main.rs:309-344 | Tearing down again over any part of the list, in any order and with any texts, changes neither registry |
| `Interleaved.StoryIsSound` | chatd/src/main.rs:310-343 | With one atomic turn per channel and any legal steps of others in between, the invariant holds at every point and the remaining memberships lie inside the unprocessed part of the snapshot |
| `Interleaved.InterleavedDeparture` | chatd/src/main.rs:385-411 | When the snapshot is used up the client is a member nowhere, so unregistering it restores the invariant |
| `Interleaved.InterleavedCollects` | chatd/src/commands.rs:104-133 | If nobody strands a channel meanwhile, the interleaved departure leaves no empty channel behind |
| `Interleaved.DepartureStarts` | chatd/src/main.rs:282-298 | Every reachable state, with the client marked as closing or zombie, is a start of such a departure |
| `Roster.RostersReplicate` | public_html/chat.js:177-245 | In every run, for a channel that always showed its members and never held an invisible client: folding what any client received shows each member of the channel exactly once and nobody else if the client is a member, and no room otherwise |
| `Roster.SyncedStep` | chatd/src/channel.rs:177-225 | Each step of any kind keeps all browsers equal to the member table, given that they were |
| `Roster.EnterSynced` | chatd/src/commands.rs:576-621 | Joining or being put into a lobby tells the newcomer all members and all members the newcomer |
| `Roster.LeaveSynced` | chatd/src/commands.rs:490-516 | Parting, with the leaver told before and the others after the removal, keeps all views right |
| `Roster.TearSynced` | chatd/src/main.rs:318-340 | One turn of any teardown loop keeps the views of everybody but the departing client right |
| `BrowserObject.Browser.OnMessage` | public_html/chat.js:316-410 | Every handler of the page is the fold step of its room, entries shown twice included, and leaves all other rooms alone |
| `BrowserObject.Browser.AddUsers` | public_html/chat.js:799-815 | The user list loop adds one entry for each listed user but oneself that has none yet, in any order |
| `BrowserObject.Browser.Receive` | public_html/chat.js:110-245 | A page that receives a sequence of messages shows its fold in every room, entry by entry |
| `Bans.BansEnforced` | chatd/src/main.rs:220-229 | In every run whose ban reasons fit, no registered client without exemption has a banned address, and the list stays free of duplicates |
| `Bans.KlineEnforces` | chatd/src/commands.rs:12-68 | Exactly when a ban command leaves bans enforced: it is refused, or its escaped text is at most 255 characters, or everybody with the address is exempt |
| `Bans.LongReasonSpares` | chatd/src/commands.rs:94-98 | A reason of 247 characters is too long by one: the ban is entered, a client with that address that is not exempt stays, and enforcement is broken |
| `Bans.BansStep` | chatd/src/server.rs:69-93 | No step breaks ban enforcement or adds an address twice |
| `Registry.UnregisteredIsEmpty` | chatd/src/commands.rs:496-516 | A step unregisters a channel only if it is not Persist and each of its members leaves that very channel in the step, by parting from it or by losing its registration |
| `Registry.PersistStays` | chatd/src/commands.rs:245-262 | Persist is lost only by an agent's mode command; until then the channel stays registered under its id, name and owner |
| `Registry.LobbiesStay` | chatd/src/server.rs:299-342 | A default lobby keeps its id and name in every run without such a command |
| `Registry.OwnerlessSettings` | chatd/src/commands.rs:198-207 | Modes or topic of a channel without owner change only by an agent's command |
| `Registry.SettingsMeaning` | chatd/src/commands.rs:275-306 | A settings command touches only its channel, only what it is about, and nothing if the sender is neither an agent nor the owner |
| `Registry.AgentOnlyCloses` | chatd/src/commands.rs:564-567 | Once a channel is agent-only with only agents inside, it holds only agents while the flag is set; of the two open lobbies this holds while no guest login enters them |
| `Registry.AgentsOnlyExactly` | chatd/src/main.rs:479-517 | A step lets somebody who is no agent into an agent-only channel of agents if and only if it is an accepted guest login that enters this channel as a lobby |
| `Registry.StaffLobbyIsForAgents` | chatd/src/server.rs:315-327 | The Staff Lobby holds only agents from startup on, while it is agent-only |
| `Collection.CollectedStep` | chatd/src/commands.rs:157-189 | From a state where every channel has a member or persists, a step leads to such a state if and only if it is neither a kick of a last member nor an agent taking Persist from an empty channel |
| `Collection.KickStrands` | chatd/src/commands.rs:179-183 | A channel as its owner created it stays registered without members when the owner kicks the only member |
| `Collection.EmptyChannelsCollected` | chatd/src/commands.rs:645-674 | Hence in every run without those two commands every registered channel has a member or persists |
| `Naming.ChannelNamesUnique` | chatd/src/commands.rs:632-645 | In every run whose joins by id carry version-4 ids, lower-cased channel names are pairwise different |
| `Naming.JoinKeepsUnique` | chatd/src/commands.rs:623-674 | A join keeps them different if and only if it creates nothing or the name is free |
| `Naming.JoinByIdUnique` | chatd/src/commands.rs:543-547 | A join by an unknown id keeps them different if and only if the id is of version 4 or no channel has its text as name |
| `Naming.NilMakesTwins` | chatd/src/commands.rs:632-645 | The nil id, joined by id twice, gives two channels of one name |
| `Naming.LookupIsFunction` | chatd/src/server.rs:278-286 | With different names a lookup has one possible answer, whatever the iteration order |
| `Naming.ClientNamesUnique` | chatd/src/server.rs:146-154 | In every run authenticated clients have valid and pairwise different names |
| `Delivery.TextsExplained` | chatd/src/main.rs:618-643 | Over any run, the user texts in every outbox are exactly those explained by membership and modes at the time of sending |
| `Delivery.TextsOfStep` | chatd/src/main.rs:618-643 | Each step adds one sanitised copy for each hearer of a text and nothing else to anybody's user texts |
| `Delivery.HearersMeaning` | chatd/src/channel.rs:347-407 | Who hears a text: the sender must be a member; then all member agents if messages are hidden, else all members but the sender |
| `Delivery.AddressesMasked` | chatd/src/channel.rs:191-218 | In every run each Join and Part that was ever sent to an id that never belonged to an agent carries 0.0.0.0, and no kill or ban notice went there, whether its client is registered or long gone |
| `Delivery.RegisteredMasked` | chatd/src/channel.rs:191-218 | For a registered client it is enough that it is not an agent now |
| `Delivery.StepShowsNothing` | chatd/src/server.rs:180-203 | No step shows an address to anybody who is not an agent before or after it, not even to a client that it removes |
| `Delivery.JoinBroadcast` | chatd/src/channel.rs:191-204 | A join reaches each then-current member exactly once, the real address only agents by their registered type; in a veiled channel only the agents |
| `Delivery.PartBroadcast` | chatd/src/channel.rs:206-218 | The same for a part, which in a veiled channel reaches nobody |
| `Delivery.TopicsOfStep` | chatd/src/commands.rs:290-302 | Every topic a step sets is absent, or non-empty, free of brackets and within the configured length |
| `RoundTrips.PartUndoesJoin` | chatd/src/commands.rs:491-494 | Parting after joining restores the member table, up to collection of a channel not worth keeping, and leaves exactly the stale list entry |
| `RoundTrips.KickUndoesJoin` | chatd/src/commands.rs:179-183 | A kick after a join restores the channels, and the clients exactly if the user's own list had no stale entry for the channel; a stale entry is removed as well |
| `RoundTrips.PartUndoesCreate` | chatd/src/commands.rs:645-674 | A created channel that is left at once is gone again |
| `RoundTrips.TopicMeaning` | chatd/src/commands.rs:290-302 | A topic is accepted exactly if its raw length plus three per bracket fits; then its single-pass escape is stored, an empty one as absence |
| `RoundTrips.TopicAgain` | chatd/src/commands.rs:290-302 | Setting the topic that is shown changes nothing |
| `RoundTrips.GuestLoginMeaning` | chatd/src/main.rs:431-546 | A guest gets in exactly if guests are allowed, the name is free and valid; then it is in exactly the configured lobbies that exist |
| `RoundTrips.AgentLoginMeaning` | chatd/src/commands.rs:336-434 | The same for agents, whose wrong credentials end the connection |
| `Farewells.BanMeaning` | chatd/src/commands.rs:12-68 | A ban command removes a client if and only if an agent sends it, the address is not banned yet, the escaped text has at most 255 characters, and the client has that address and is neither an agent nor an Admin |
| `Farewells.BanEffect` | chatd/src/commands.rs:12-68 | The whole new state after a ban: the refusals, the entry in the list, who is gone from clients and channels, and for every outbox the notice with the number of clients at the address and the messages of each kill |
| `Farewells.KillEffect` | chatd/src/commands.rs:70-155 | A kill: the four refusals with their codes, else the departure and exactly these messages: a Quit with the escaped reason to each other member of each listed channel, the message to the victim, the notice to the connected agents who stay |
| `Farewells.GivenIs` | chatd/src/commands.rs:91-102 | The text of a kill is free of brackets and never empty, and is as long as the reason plus three for each bracket |
| `Farewells.OneQuitEach` | chatd/src/main.rs:309-344 | Whoever hears of a departure gets one Quit for each listed channel it hears it in, and nothing else |
| `Farewells.ErrorEffect` | chatd/src/main.rs:309-344 | A read error: the departure, and in channels with hidden members or invisible ones only the agents are told |
| `Farewells.NoLoginEffect` | chatd/src/main.rs:555-562 | A client that must log in and sends something else is unregistered without anybody being told |
| `Farewells.CheckEffect` | chatd/src/main.rs:346-418 | A health check for every client: who is unregistered, who is pinged, who is told of its timeout, whose action time moves, which channels disappear, and who hears of whom in which order |
| `Effects.KickEffect` | chatd/src/commands.rs:157-189 | A kick: refused unless the sender is an agent or the owner and the user is a member; else the user is out of the table, the channel out of its list, and each member, the user included, is sent one Kick |
| `Effects.ModesEffect` | chatd/src/commands.rs:191-266 | A mode change: refused unless the sender is an agent or the owner; agents decide about all flags, owners about Invite Only and Not Listed; the members are told exactly if something changed |
| `Effects.TopicEffect` | chatd/src/commands.rs:268-306 | A topic change: refused unless the sender is an agent or the owner and the text fits; the single-pass escape is stored and shown to the members |
| `Effects.SayEffect` | chatd/src/main.rs:618-643 | A text changes no registry and is sent, escaped, to exactly the agents inside or to all other members; a text of somebody outside goes to nobody |
| `Effects.ListEffect` | chatd/src/commands.rs:308-333 | The list of channels goes to the asker alone, has a row for exactly the channels it may see, and each row has the name, the topic, the number of members and a word that decodes to the modes |
| `Effects.PartEffect` | chatd/src/commands.rs:456-532 | A part: refused without Admin or PartChannels, for no member, and in a channel that only agents with Admin may leave; else the member is out, an empty channel is gone, and everybody's messages are given |
| `Effects.IgnoredEffect` | chatd/src/main.rs:547-549 | A device login, a second login and an unknown command change nothing but the timestamps and send nothing |
| `Entries.JoinMeaning` | chatd/src/commands.rs:564-574 | Who gets into a channel that exists: those with Admin or JoinChannels, agents only if it is agent-only, Admins only if it is by invitation; everybody else is refused without effect |
| `Entries.JoinEffect` | chatd/src/commands.rs:535-680 | A join by name or id: the channel meant, each refusal with its code, and the new tables and everybody's messages on entering or creating |
| `Entries.EnterEffect` | chatd/src/channel.rs:177-204 | Entering: clone and list entry, the announcement to each member with the address for agents, and the newcomer's modes, join, members and topic in this order |
| `Entries.GuestLoginEffect` | chatd/src/main.rs:431-546 | A guest login: the prefixed or generated name, the refusals with their codes, the new record, the id and name sent back, the lobbies and all messages about them |
| `Entries.AgentLoginEffect` | chatd/src/commands.rs:336-434 | The same for agents; after wrong credentials the client is told and unregistered |
| `Idle.AtMostTwoPings` | chatd/src/main.rs:361-379 | A silent client is pinged at most twice, whatever the times of the checks |
| `Idle.SelectionWindow` | chatd/src/main.rs:361-372 | No check selects it within 180 s of its last command, and every check after 240 s does |
| `Idle.SelectedSoon` | chatd/src/main.rs:203-208 | With checks at most d apart it is selected after T0+180 s and by T0+240 s+d |
| `Idle.SelectedAsLateAs` | chatd/src/main.rs:361-379 | The bound T0+240 s+d is reached |
| `Idle.RegularBound` | chatd/src/main.rs:203-208 | With a check every 50 s it is selected after T0+180 s and by T0+280 s |
| `Idle.RegularBoundTight` | chatd/src/main.rs:203-208 | T0+280 s is reached |
| `Idle.SilentClientPurged` | chatd/src/main.rs:346-416 | In runs: a check leaves a silent client registered up to T0+180 s, removes it after T0+240 s, and at most two earlier checks pinged it |
| `Idle.SilentClientGone` | chatd/src/main.rs:346-416 | In runs: after a check later than T0+240 s it is never registered again |
| `Idle.SilentClientGoneInTime` | chatd/src/main.rs:203-208 | In runs whose checks are at most d apart, beginning at T0 and reaching past T0+240 s: a check after T0+180 s and by T0+240 s+d leaves it unregistered, and any check that removes it lies in that window |
| `Idle.PingMessages` | chatd/src/main.rs:361-379 | In runs: while a silent client is registered, the Ping messages in its outbox are those that its record calls for |
| `Idle.TwoPingMessages` | chatd/src/main.rs:361-379 | In runs: a silent client is sent at most two Ping messages, whether it stays or goes |
| `Idle.PingBeforeAction` | chatd/src/client.rs:150-156 | In every reachable state the ping time does not exceed the action time |
| `Idle.CommandStamps` | chatd/src/main.rs:421-423 | A command leaves both timestamps of its sender at the time of the command |
| `Idle.NewcomerIsActive` | chatd/src/main.rs:219-268 | A connection that is not banned counts as active from its first moment, so all bounds hold from then on |
| `Modes.AccumulateModes` | chatd/src/commands.rs:209-217 | The loop that adds up marked flags computes the request masked to the twelve flag bits |
| `Modes.OptionsFromWord` | chatd/src/channel.rs:136-144 | Or-ing the marked flags decodes the word |
| `Modes.WordRoundTrip` | chatd/src/channel.rs:27-46 | Decoding inverts encoding, and encoding what was decoded keeps exactly the twelve low bits |
| `Modes.OwnerKeepsPrivateModes` | chatd/src/commands.rs:234-243 | However many owner requests, the private modes survive and the last request alone decides the public ones |
| `Modes.DialogShowsModes` | public_html/chat.js:660-731 | Opening the settings dialog on the server's labels ticks exactly the channel's modes |
| `Modes.SaveDialog` | public_html/chat.js:609-645 | Saving re-encodes the boxes in the page's own order to the word that decodes to them |
| `Settings.SavingUnchangedIsSilent` | chatd/src/commands.rs:231-262 | Saving an unchanged dialog changes nothing and sends nothing |
| `Settings.SavingChanges` | chatd/src/commands.rs:219-262 | Saving changes something if and only if a differing box may be changed by the saver, and then exactly those boxes |
| `Settings.PrivateModesStay` | chatd/src/commands.rs:234-243 | No step but an agent's mode command changes a mode that owners cannot set |
| `Dialog.ModesReplicate` | chatd/src/channel.rs:177-186 | In every state of every run the last mode labels a member was sent about a channel are its present modes, except for clients that join unseen |
| `Dialog.UpToDateStep` | chatd/src/commands.rs:245-263 | No step leaves a member with outdated modes: entering shows them, and every change is sent to every member |
| `Page.KeptLabels` | public_html/chat.js:177-182 | The page's labels, which arrive half a second late and are dropped at its own Join, for every sequence of messages and timers: pending ones end with the last sent, and once none is pending the page keeps the last sent exactly if a timer has ended since its Join |
| `Dialog.DialogRoundTrip` | public_html/chat.js:442-731 | At any point of any run, let a member who may change modes have received all its messages, with no label timer pending: its page has the channel's present labels exactly if a timer has ended since its last own Join; then the dialog ticks the present modes, and saving them unchanged changes and sends nothing |
| `Text.EscapeMeaning` | chatd/src/message.rs:79-84 | The two replacements are one pass, leave no bracket and cost three characters per bracket |
| `Text.EscapeIdempotent` | chatd/src/message.rs:79-84 | Escaping again changes nothing, and exactly bracket-free text is left alone |
| `Text.NameMeaning` | chatd/src/client.rs:211-220 | Names are 3 to 30 (channels: 50) characters out of a given set, and so hold no bracket |
| `Text.LowerMeaning` | chatd/src/server.rs:278-286 | Names are equal up to case exactly if their characters are the same but for capital and small letters |
| `Uuids.TextLooksLikeV4` | chatd/src/commands.rs:633-634 | The pattern that stops a join matches the text of an id exactly if the id is of version 4 |
| `Dispatch.HandleClientCommand` | chatd/src/main.rs:420-651 | Carrying out any command of a client of any status on the objects is one legal step of the machine; it keeps the invariant exactly if it is not the join of `Steps.StepExactly` |
| `Dispatch.HandleLogin` | chatd/src/main.rs:427-596 | Before authentication: the two logins, device logins without effect, and the end of the connection for anything else |
| `Dispatch.HandleConnected` | chatd/src/main.rs:601-650 | The commands of authenticated clients, with the lookups and orders really taken being legal choices |
| `Service.Connect` | chatd/src/main.rs:219-268 | The ban check and registration are the machine's connection step |
| `Service.HandleClientError` | chatd/src/main.rs:309-344 | The error loop over the objects, in any order, is the machine's step; a late error of an unregistered client changes nothing |
| `Service.CloseConnection` | chatd/src/main.rs:282-298 | Marking as closing before the teardown makes no difference to the result |
| `Service.DeliverText` | chatd/src/main.rs:618-643 | Delivery of a text on the objects is the machine's step |
| `Health.InspectAll` | chatd/src/main.rs:351-379 | The ping loop, in any order of clients, is the simultaneous inspection, and lists each expired client once |
| `Health.CheckClientPings` | chatd/src/main.rs:346-418 | Both loops together are one health check of the machine, with the expired clients and the orders of their lists as a legal plan |
| `Commands.Kill` | chatd/src/commands.rs:70-155 | The kill handler on the objects is the machine's step for the order it took |
| `Commands.Kline` | chatd/src/commands.rs:12-68 | The ban handler, with its search and its kills one by one, is the machine's step for a legal plan |
| `Commands.QuitAll` | chatd/src/commands.rs:109-147 | The loop over a snapshot of the list, in any order, lists each channel once and has the effect of its turns |
| `Commands.FindTargets` | chatd/src/commands.rs:34-50 | The search finds exactly the clients with the address who are no agents, each once |
| `ChannelCommands.KickMember` | chatd/src/commands.rs:157-189 | The kick handler on the objects is the machine's step |
| `ChannelCommands.SetChannelModes` | chatd/src/commands.rs:191-266 | The mode handler with its summing, decoding and merging loops is the machine's step |
| `ChannelCommands.SetChannelTopic` | chatd/src/commands.rs:268-306 | The topic handler on the objects is the machine's step |
| `ChannelCommands.Part` | chatd/src/commands.rs:456-532 | The part handler on the objects is the machine's step |
| `ChannelCommands.ListChannels` | chatd/src/commands.rs:308-333 | Asking for the list sends these rows to the asking client alone |
| `ChannelCommands.CollectRows` | chatd/src/commands.rs:308-333 | One row for each channel that is neither invisible nor secret, nor agent-only and asked for by somebody else; with its name, topic, size and modes |
| `Joining.JoinChannel` | chatd/src/commands.rs:535-680 | The join handler, by name or id, is the machine's step for the lookup it made |
| `Joining.AuthAgent` | chatd/src/commands.rs:336-434 | The agent login on the objects is the machine's step for the lobbies it found |
| `Joining.AuthGuest` | chatd/src/main.rs:431-546 | The guest login on the objects is the machine's step for the lobbies it found |
| `ChannelObject.Channel.MergePublicModes` | chatd/src/commands.rs:236-243 | The conditional add and exclusive-or loop is old minus public plus requested public, so each exclusive or acts as a clear |
| `ChannelObject.Channel.SendToAllButOne` | chatd/src/channel.rs:347-365 | Each member but one gets one copy, in any order of members |
| `ChannelObject.Channel.SendToAgents` | chatd/src/channel.rs:391-407 | Each member agent gets one copy |
| `ChannelObject.Channel.SendToNonAgents` | chatd/src/channel.rs:370-386 | Each other member gets one copy |
| `ChannelObject.Channel.SendToAll` | chatd/src/channel.rs:412-425 | Each member gets one copy |
| `ChannelObject.Channel.AddMember` | chatd/src/channel.rs:177-186 | The newcomer is announced to those already inside, shown the modes and then inserted as a clone |
| `ChannelObject.Channel.BroadcastPart` | chatd/src/channel.rs:206-218 | The broadcast on the objects; nothing is sent in a veiled channel, as the future is dropped |
| `ServerObject.Server.SendToWallops` | chatd/src/server.rs:180-203 | Each connected agent gets one copy, in any order of clients, and the result is their number |
| `ServerObject.Server.ClientNameToUuid` | chatd/src/server.rs:146-154 | A client is found exactly if the name is taken |
| `ServerObject.Server.ChannelNameToUuid` | chatd/src/server.rs:278-286 | A channel is found exactly if one has the name up to case |
| `ServerObject.Server.GetChannelByName` | chatd/src/server.rs:265-273 | A channel is found exactly if one has the very name |
| `ServerObject.Server.CreateDefaultChannels` | chatd/src/server.rs:299-342 | The objects after startup are the machine's start state |
| `Commands.QuitTurn` | chatd/src/commands.rs:109-147 | One turn of the kill and purge loops, which tell the others before the removal, is the machine's turn |
| `Service.ErrorTurn` | chatd/src/main.rs:318-340 | One turn of the error loop, which tells the others after the removal, reaches the same clients and is the machine's turn |
| `Commands.Strike` | chatd/src/commands.rs:104-154 | A permitted kill from the snapshot to the notice: quit everywhere, clear the list, last message, unregister, tell the operators |
| `ChannelCommands.ChangeModes` | chatd/src/commands.rs:229-262 | Agents set all modes, owners merge the public ones; members are told exactly if something changed |
| `ChannelCommands.LeaveChannel` | chatd/src/commands.rs:490-516 | The leaver is told first, then removed, then the rest is told, then an empty channel goes |
| `Joining.EnterChannel` | chatd/src/commands.rs:576-621 | Announcing, inserting, listing and welcoming on the objects is the machine's entry |
| `Joining.CreateChannel` | chatd/src/commands.rs:645-674 | The creator joins before the channel is registered, with the result of registering first |
| `Joining.EnterLobby` | chatd/src/main.rs:479-507 | A lobby is entered exactly if it is configured and a channel of its name is found |
| `Joining.SignIn` | chatd/src/main.rs:459-473 | The name decides: type, permissions and status are set and confirmed, or the client keeps its record and is told |
| `Health.InspectOne` | chatd/src/main.rs:357-379 | Past the timeout a client is told and marked, past the idle minute it is pinged and gets one more cycle |
| `Health.PurgeOne` | chatd/src/main.rs:381-414 | The purge of one client on the objects is the machine's purge for the order it took |
| `ChannelObject.Channel.BroadcastJoin` | chatd/src/channel.rs:191-204 | The broadcast on the objects: only agents in a veiled channel, else everybody with the address masked for non-agents |

## Left out

- TLS, websockets, JSON and closing of sockets: sends always succeed, an outbox is the sequence of messages written to a connection.
- The credential check (SQLite and SHA-256): its answer, optional permissions, is part of the agent login command.
- Configuration and ban files, history logs and messages of the day: the configuration and the loaded bans are parameters, the rest is output only.
- Random numbers: ids are new and not nil, names of guests without one are arbitrary.
- Locks and their order: handlers are atomic; only the departure loops are also split into turns (`Interleaved.dfy`). Finer interleavings are not covered.
- The clock is read once in a step. The 50 second sleep of the health task: `Idle.RegularBound` takes the checks to be exactly 50 s apart, `Idle.SelectedSoon` at most d.
- Ban expiry, which is never looked at, and removal of bans, which no handler uses.
- Typing notices, replies to pings, Whois, private messages, files, invitations (never granted) and zombies as a way back in: unfinished, or without effect on the shared state.
- The counters of connections, guests and members by type: nothing depends on them.
- The parts of messages that no theorem is about: texts of problem messages, and channel names in the client's own list.
- The page's element tree: a room is the multiset of the user ids it shows, its counter is left out, and a handler that would fail on a missing element changes nothing. Timers of equal length end in the order they were set.
- Lower-casing outside ASCII: `Text.Lower` maps A to Z only.
- The sender that a client shares with its clones: all senders are one table of outboxes by client id (`ClientObject.Wire`).
- Panics: an expiry time out of range, and a channel lock that is held during a lookup by name.
- The check for a present ban and the insertion are one method, as the lock is held across both.
- Joining.JoinChannel: the id of a join by id is passed as an id; printing and parsing it again is not modelled.
- Joining.WelcomeClient: the four copies of this code, in the join and in the logins, are one method with a flag.
- Service.Connect: the ban check and the registration are one step; the handshake between them is not modelled.
