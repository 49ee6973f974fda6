# A verified model of `ircserv` and `mini_serv`

`ircserv` is a single-threaded IRC server: an event loop over `poll`, one connection object per
client with a receive and a send buffer, a parser, command handlers, and a graph of clients and
channels that point at each other. `mini_serv` is a small relay over `select`. This project models
both, and the parts of the bonus bot that talk to the server, and proves what they promise.

`dafny verify dfyconfig.toml` checks everything.

## How the proofs hang together

* **Meaning.** `Model.dfy` gives every command a meaning on a plain state: clients by descriptor,
  channels by folded name, membership kept once, nicknames found by scanning everybody.
  `Soundness.dfy` has the state invariant; `Runs.dfy` defines runs as logs of accepts, commands and
  disconnects; `RunTheorems.dfy`, `CommandTheorems.dfy` and `ModeTheorems.dfy` prove the claims
  about whole runs, about single events and about the mode query. `Replies.dfy`,
  `JoinReplies.dfy`, `ModeReplies.dfy` and `RegistrationReplies.dfy` say for every command which
  refusal comes when and what every client gets, as bytes; `Wording.dfy` has the formats.
* **The object graph.** `ServerGraph.dfy` and `ServerStates.dfy` model the real data structure: two
  client indexes, the channel index, two-sided membership, invite sets, with objects created and
  deleted. Its invariant says that nothing dangles and nothing leaks. `Dispatcher.dfy` and
  `Notifier.dfy` are the handlers on that graph; each is proved to have exactly the state change
  and the replies of the plain model.
* **The event loop.** `Connections.dfy`, `Poll.dfy`, `Passes.dfy`, `Health.dfy` and `Servers.dfy`
  model the four views of the same clients, the scan that erases as it goes, partial reads and
  writes. The ghost log of the server only grows and ties every reachable state to a run of the
  plain model; `Guarantees.dfy` uses it to state the run theorems for two moments of one server;
  `Servers.Server.Run` says what every round of the loop does to every client;
  and `Poll.DeliveryEndToEnd` and `Bots.HeardInOrder` speak about the bytes on the wire.
* **Codecs.** `Wire.dfy` (parser and line formats), `Layouts.dfy` (the grammar the parser accepts),
  `Framing.dfy` (line splitting), `Modes.dfy` (mode query and replay), `IrcText.dfy` (case folding and
  its order).
* **The relay.** `MiniServ.dfy`.

The environment is an adversary with contracts: `accept` returns a descriptor not in use or fails,
`recv` delivers 1 to 4097 bytes or fails, `send` takes at most what it is offered, `poll` and
`select` report anything. The order in which pointer-keyed containers are walked is arbitrary: it
appears as an enumeration `order` of the members.

`Sealing.dfy` is a device for keeping large invariants folded; it says nothing about the server.

## What the proofs found

* **Nobody is ever pinged.** The event loop collects timed-out clients but nothing in the server
  calls `generatePing`, so the timeout never fires (`Health.NeverPingedNeverTimesOut`,
  `Servers.Server.Run`).
* **Printing a parsed line is not always reversible.** A message without prefix whose command
  starts with a colon prints to a line whose command reads back as a prefix. `Wire.AmbiguousCommand`
  is such a line; `Wire.ReparseIffUnambiguous` shows it is the only case.
* **Some keys cannot be read back from a mode query.** The reply joins key and limit with a blank
  into one parameter. `Modes.QueryFaithfulIff` says exactly for which keys the reply is faithful, and
  `ModeTheorems.BlankKeyIsLost` gives a command that sets another one.
* **Folding and validity disagree on one character.** `~` folds to `^`, but only `^` may be part of
  a nickname: a command that names the holder of `^x` as `~x` is told there is no such nickname,
  although the index would find it (`CommandTheorems.KickIff` and `RunTheorems.TextIff`, and
  `ModeTheorems.TildeIsNotKicked` for a concrete command and its reply).
* **The length check looks at the first line only**, as the source itself notes
  (src/a/Server.cpp:337-342). `Connections.ReadBound` is the bound that holds nevertheless.

## Model

| member | source | states |
|---|---|---|
| `IrcText.IrcStringCompare` | src/c/Utils.cpp:40-50 | The comparator loop decides the lexicographic order of the folded names (signed characters, the shorter prefix first). |
| `IrcText.EquivalenceIsFoldEquality` | src/c/Utils.cpp:40-50 | Two names are equivalent under the comparator exactly when they are equal after case folding. |
| `IrcText.EquivalenceIsSameName` | src/c/Utils.cpp:8-50 | Two names are equivalent under the comparator exactly when they have the same length and the letters at each place are equal or the two cases of one letter (A-Z with a-z, square brackets with braces, the backslash with the vertical bar, the tilde with the caret). |
| `IrcText.LessTransitive` | src/c/Utils.cpp:40-50 | The comparator is transitive. |
| `IrcText.LessAsymmetric` | src/c/Utils.cpp:40-50 | The comparator is asymmetric, hence irreflexive: with the two rows above, a strict weak order. |
| `IrcText.IsValidNickname` | src/c/Utils.cpp:52-65 | The loop accepts exactly the valid nicknames. |
| `IrcText.IsValidChannelName` | src/c/Utils.cpp:67-77 | The loop accepts exactly the valid channel names. |
| `IrcText.NicknameSpelling` | src/c/Utils.cpp:17-65 | A nickname is valid exactly when it has 1 to 9 characters from the alphabets spelled out and does not start with a digit or a hyphen. |
| `IrcText.ChannelSpelling` | src/c/Utils.cpp:33-77 | A channel name is valid exactly when it is a hash sign and at least one more character and none of the seven barred characters follows. |
| `Model.HeldBy` | src/c/ClientRegistry.cpp:53-82 | The holders of a nickname are the clients whose nickname is the same letter by letter but for case. |
| `RunTheorems.NicknamesApart` | src/c/ClientRegistry.cpp:53-82 | In no reachable state do two clients hold nicknames that differ only in the case of letters. |
| `RunTheorems.ChannelsApart` | src/c/ServerState.cpp:19-37 | In no reachable state do two channels have names that differ only in the case of letters, and a name in whatever case finds the one there is. |
| `Wire.SkipSeparators` | src/b/Parser.cpp:28-32 | The position moves over exactly the leading blanks. |
| `Wire.ReadToken` | src/b/Parser.cpp:54-62 | The token is the longest blank-free prefix and the position stands behind it. |
| `Wire.ReadPrefix` | src/b/Parser.cpp:34-52 | The prefix is read, or the line is rejected, so that the rest parses to the same message. |
| `Wire.ReadParams` | src/b/Parser.cpp:64-79 | The loop collects the middle parameters and the trailing one. |
| `Wire.ParseLine` | src/b/Parser.cpp:83-95 | The imperative parser computes `Parse`. |
| `Wire.ParseOfRender` | src/b/ReplyBuilder.cpp:246-280 | Parsing a formatted line gives back its prefix, command and parameters, for every blank-free prefix, command, well-formed middles and arbitrary last parameter. |
| `Wire.ParsedShape` | src/b/Parser.cpp:64-95 | Every successfully parsed message can be printed: blank-free prefix, upper-case command, well-formed middles, whatever the line was. |
| `Wire.ReparseIffUnambiguous` | src/b/Parser.cpp:34-95 | Printing and re-parsing a parsed message is the identity exactly when the command does not start with a colon in the absence of a prefix. |
| `Wire.AmbiguousCommand` | src/b/Parser.cpp:34-52 | A concrete line that parses to a message which printing and parsing changes. |
| `Wire.ParseClean` | src/b/Parser.cpp:9-24 | A newline-free line parses to newline-free parts. |
| `Wire.BodyClean` | src/b/ReplyBuilder.cpp:46-55 | The body of a line built from newline-free parts is newline-free, so its terminator is its only newline. |
| `Layouts.ParseIff` | src/b/Parser.cpp:9-95 | A line is parsed as a given message with a command exactly when it is one of the ways to write that message: prefix, command in either case, blank-free parameters and a trailing one, with any number of blanks between them, with or without the terminator. |
| `Layouts.CommandIsCapital` | src/b/Parser.cpp:17-24 | No command of a parsed line contains a small letter. |
| `Layouts.CommandCase` | src/b/Parser.cpp:17-24 | Two lines that differ only in the case of the letters of their commands are parsed as the same message. |
| `Framing.SplitUnique` | bonus/irc/LineBuffer.cpp:10-23 | The reference split is the only way to write a stream as terminated pieces and a newline-free rest. |
| `Framing.SplitConserves` | bonus/irc/LineBuffer.cpp:10-23 | The pieces with their newlines, followed by the rest, are the stream. |
| `Framing.SplitResumes` | src/a/Connection.cpp:71-91 | Splitting what is left over together with the next chunk continues the split of the whole stream: framing does not depend on chunking. |
| `Framing.FramedLines` | src/a/Connection.cpp:71-91 | A stream of lines, each ended by a newline or by carriage return and newline, and an unfinished rest is cut into exactly the texts of the lines, with the rest left over. |
| `Framing.AnyStream` | src/a/Connection.cpp:71-91 | Every stream of bytes is of that kind. |
| `Framing.DecodeRendered` | src/b/ReplyBuilder.cpp:46-55 | A stream of formatted lines decodes into exactly those lines, in order, with nothing left over. |
| `Framing.LineBuffer.Append` | bonus/irc/LineBuffer.cpp:10-23 | However the stream was chunked, the lines popped and queued are those of the reference split of all bytes received and the buffer is its residue; a line may end in a newline with or without a carriage return, and only that is removed. |
| `Framing.LineBuffer.SplitOff` | bonus/irc/LineBuffer.cpp:13-22 | The loop queues exactly the complete lines of the buffer and leaves its rest. |
| `Framing.LineBuffer.HasLine` | bonus/irc/LineBuffer.cpp:25-25 | Whether a line is queued. |
| `Framing.LineBuffer.PopLine` | bonus/irc/LineBuffer.cpp:27-34 | Takes the oldest line; an empty queue gives the empty string and changes nothing. |
| `Connections.ReadBound` | src/a/Connection.cpp:15-66 | A residue of at most 4096 bytes stays so through every read the connection survives; the buffer never exceeds 8193 bytes; a residue of 512 bytes or more does not survive the next read. |
| `Connections.TooLongIff` | src/a/Connection.cpp:15-28 | A line is too long exactly when more than 512 bytes are buffered and there is no newline among the first 512. |
| `Connections.ReceivedOk` | src/a/Connection.cpp:56-66 | A read keeps the account of received bytes, popped lines and buffer. |
| `Connections.PoppedOk` | src/a/Connection.cpp:79-91 | Popping moves the first line of the reference split to the popped ones and leaves the residue alone. |
| `Connections.BufferedOk` | src/a/Connection.cpp:105-105 | Buffering a message keeps: bytes sent followed by the send buffer are the messages queued. |
| `Connections.WrittenOk` | src/a/Connection.cpp:111-118 | A partial send keeps: bytes sent followed by the send buffer are the messages queued. |
| `Connections.Connection.ReadFromSocket` | src/a/Connection.cpp:56-66 | Appends what recv delivered; a failure changes nothing. The cached newline position is left as it was, stale or not, until it is next looked up. |
| `Connections.Connection.IsLineTooLong` | src/a/Connection.cpp:15-28 | True exactly when the buffer exceeds 512 bytes and the first 512 hold no newline. |
| `Connections.Connection.HasCompleteLine` | src/a/Connection.cpp:71-74 | The cached position answers whether the buffer holds a newline. |
| `Connections.Connection.PopLine` | src/a/Connection.cpp:79-91 | Removes and returns the first line without its newline and without one carriage return before that; a line that ends in a bare newline is returned whole. |
| `Connections.Connection.Drain` | src/a/Server.cpp:354-367 | Pops exactly the complete lines, whatever position was cached before, and leaves the residue; the texts are the written ones whether the lines end in a newline or in carriage return and newline. |
| `Connections.Connection.BufferSend` | src/a/Connection.cpp:105-105 | Appends to the send buffer. |
| `Connections.Connection.HasPendingOutput` | src/a/Connection.cpp:107-109 | Whether the send buffer is non-empty. |
| `Connections.Connection.WriteToSocket` | src/a/Connection.cpp:111-118 | Drops from the buffer exactly the bytes the socket took. |
| `Modes.LimitAcceptedIff` | src/b/ChannelCommandHandler.cpp:362-378 | A text is accepted as the limit n exactly when, up to a NUL, it is blanks, at most a plus sign and the digits of n, with n in 1..INT_MAX. |
| `Modes.CStringEnds` | src/b/ChannelCommandHandler.cpp:362-378 | What the C functions see of a text is its longest beginning without a NUL. |
| `Modes.LimitRoundTrip` | src/b/ChannelCommandHandler.cpp:15-19 | Reading the decimal print of a limit gives the limit back, on the whole range. |
| `Modes.ChangeValid` | src/c/ChannelModes.cpp:20-42 | A mode change keeps the limit at -1 or in 1..INT_MAX and the key empty when unset. |
| `Modes.MinusUndoesPlus` | src/b/ChannelCommandHandler.cpp:270-304 | Setting a mode turns it on and unsetting it restores the modes; a change is refused only for a missing or non-positive argument of k or l. |
| `Modes.BuildChannelModeQuery` | src/b/ChannelCommandHandler.cpp:28-47 | The query collects the letters and arguments of the modes that are set. |
| `Modes.ReplayRebuilds` | src/b/ChannelCommandHandler.cpp:28-47 | Replaying one +x per letter with its argument on a fresh channel rebuilds the same modes. |
| `ModeTheorems.CommandsRebuild` | src/b/ChannelCommandHandler.cpp:222-315 | On a channel without modes, an operator's parsed MODE commands, one per queried letter with its argument, form a run that leads to exactly the queried modes and changes nothing else. |
| `Modes.QueryFaithfulIff` | src/b/ReplyBuilder.cpp:125-137 | The parsed reply to a mode query gives back letters and arguments exactly when the key, if any, is non-empty, blank-free and does not start with a colon. |
| `ModeTheorems.BlankKeyIsLost` | src/b/ChannelCommandHandler.cpp:270-304 | A concrete command, MODE with a key that contains a blank, is accepted and the reply to the query afterwards does not read back. |
| `ModeReplies.ModeQueryIff` | src/b/ChannelCommandHandler.cpp:249-256 | A member's MODE with nothing but the channel changes nothing and gets one reply, which parses as a 324 for it about that channel: the letters are exactly the modes that are set there, and replaying what was parsed gives exactly the modes of the channel if and only if its key, if any, can be a parameter. |
| `ModeTheorems.TildeIsNotKicked` | src/b/ChannelCommandHandler.cpp:55-111 | A concrete KICK by an operator that spells a member's nickname with a tilde leaves the member in place although folding finds it, and the operator gets exactly the reply 401 for the name it gave. |
| `ModeTheorems.ExampleReached` | src/b/CommandDispatcher.cpp:83-199 | The state of these two examples is what the given run (two clients register and join) leads to, from the empty server. |
| `Health.ConnectionHealthMonitor.UpdateActivity` | src/lifecycle/ConnectionHealthMonitor.cpp:35-37 | Records the activity, creating the entry when there is none. |
| `Health.ConnectionHealthMonitor.GeneratePing` | src/lifecycle/ConnectionHealthMonitor.cpp:43-53 | Starts waiting for the token of this descriptor and second and emits the PING line. |
| `Health.ConnectionHealthMonitor.MarkPongReceived` | src/lifecycle/ConnectionHealthMonitor.cpp:60-70 | Only the expected token ends a wait. |
| `Health.ConnectionHealthMonitor.HasTimedOut` | src/lifecycle/ConnectionHealthMonitor.cpp:76-82 | True exactly for a waiting client whose ping is older than the timeout. |
| `Health.ConnectionHealthMonitor.CollectTimedOutClients` | src/lifecycle/ConnectionHealthMonitor.cpp:88-99 | The list holds exactly the timed-out descriptors, strictly ascending. |
| `Health.ConnectionHealthMonitor.RemoveClient` | src/lifecycle/ConnectionHealthMonitor.cpp:101-101 | Forgets the client. |
| `Health.TokenInjective` | src/lifecycle/ConnectionHealthMonitor.cpp:125-130 | Tokens of different descriptors or seconds differ. |
| `Health.WaitingIsUnanswered` | src/lifecycle/ConnectionHealthMonitor.cpp:43-70 | Over every run, waiting holds exactly when the last ping is unanswered, and exactly when the expected token is non-empty. |
| `Health.ActivityIsLastSeen` | src/lifecycle/ConnectionHealthMonitor.cpp:31-70 | Over every history the monitor knows exactly the clients it heard of since they were last forgotten, each with the time of the last event. |
| `Health.AnswerIsLast` | src/lifecycle/ConnectionHealthMonitor.cpp:58-70 | Over every history the time of the last PONG is that of the last answer to a pending ping. |
| `Health.PingBytes` | src/b/ReplyBuilder.cpp:58-60 | The bytes of a PING, and its token. |
| `Health.TimedOutIff` | src/lifecycle/ConnectionHealthMonitor.cpp:76-82 | Over every run, a client is timed out exactly when more than the timeout has passed since its unanswered ping. |
| `Health.UnansweredFires` | src/lifecycle/ConnectionHealthMonitor.cpp:60-82 | A ping followed by anything but its own answer, a new ping or a removal of the client, including PONGs with any other text, fires exactly when its time is up. |
| `Health.OtherAnswerLeavesPending` | src/lifecycle/ConnectionHealthMonitor.cpp:125-130 | The answer to a ping of another descriptor or second does not end a wait. |
| `Health.FrequentPingsNeverFire` | src/lifecycle/ConnectionHealthMonitor.cpp:43-53 | In a run whose pings of a client are at most the timeout apart, no prefix of the run is timed out up to the time of the next ping, nor after the last one within the timeout, answered or not. |
| `Health.NeverPingedNeverTimesOut` | src/a/Server.cpp:263-267 | Without pings nothing ever times out. |
| `Soundness.DecideAllowed` | src/b/CommandDispatcher.cpp:24-81 | Whatever a parsed message asks for, the effect chosen satisfies the permissions of that effect (registration, membership, operator status, gates, valid names). |
| `Soundness.ApplySound` | src/b/CommandDispatcher.cpp:83-348 | Every effect keeps the state invariant: valid distinct nicknames, non-empty channels under their own folded name, live members that are registered, operators among members, invited clients live and outside. |
| `Soundness.EraseSound` | src/c/ServerState.cpp:76-95 | Erasing a client keeps the state invariant. |
| `Runs.RunSound` | src/c/ServerState.cpp:15-134 | Every state reached by any run of accepts, commands and disconnects satisfies the invariant. |
| `Runs.RunSplit` | src/c/ServerState.cpp:15-134 | A run can be cut anywhere: the rest is a run from the state reached. |
| `Runs.OutputsGood` | src/b/CommandDispatcher.cpp:357-367 | Every reply goes to a client that is live when it is queued, so none is dropped; it has its only newline at the end, and is a welcome only when the event registers its sender. |
| `Runs.ToAllOnce` | src/b/CommandDispatcher.cpp:357-367 | A member loop sends each member but the excepted one exactly one copy, and nobody else any. |
| `Runs.DeliveryDecodes` | src/a/Server.cpp:482-491 | The bytes of all messages addressed to a client since it was accepted decode into exactly those messages, in order. |
| `Runs.QuitToldOnce` | src/b/DisconnectNotifier.cpp:16-49 | A disconnect addresses exactly one QUIT to each other client sharing a channel and nothing to anybody else. |
| `Runs.DisconnectErasesOnly` | src/c/ServerState.cpp:76-95 | The state after a disconnect is the old one without that client: other clients untouched, channels with another member kept with name, topic, modes and everybody else's membership, operator flag and invitation, channels it was alone on gone. |
| `RunTheorems.WelcomeStep` | src/b/CommandDispatcher.cpp:350-355 | One event welcomes a client exactly when it turns it into a registered one. |
| `RunTheorems.WelcomedIffRegistered` | src/b/CommandDispatcher.cpp:350-355 | Over any run a live client got one 001 since accept if it is registered, none if not. |
| `RunTheorems.RegistrationStep` | src/b/CommandDispatcher.cpp:83-139 | No event reverts an accepted password or a registration or changes a registered client's username, real name or host; the password is accepted only by a PASS that presents it. |
| `RunTheorems.RegistrationLasts` | src/b/CommandDispatcher.cpp:83-139 | The same over any run while the client stays connected. |
| `RunTheorems.RegisteredGavePassword` | src/b/CommandDispatcher.cpp:83-101 | A client that is past PASS at the end of a run gave a PASS with the server password in it. |
| `RunTheorems.AuthorityStep` | src/b/ChannelCommandHandler.cpp:258-348 | Within a channel's lifetime its modes change and its operator set grows only by a MODE command of a current operator. |
| `RunTheorems.FounderStep` | src/c/ServerState.cpp:19-37 | A channel appears only by the JOIN of a registered client, who is its only member and operator, with no mode, topic or invitation. |
| `RunTheorems.AuthorityRun` | src/b/ChannelCommandHandler.cpp:258-348 | Over any run in which no operator of the channel uses MODE, its modes stay and no operator appears. |
| `RunTheorems.OperatorlessIsFrozen` | src/b/ChannelCommandHandler.cpp:258-348 | Once no member is an operator, modes are frozen and no operator appears for the rest of the channel's life, over every run. |
| `RunTheorems.AdmissionStep` | src/b/CommandDispatcher.cpp:142-199 | A client becomes a member only by its own JOIN, registered, founding the channel or passing all three gates. |
| `RunTheorems.AdmissionRun` | src/b/CommandDispatcher.cpp:142-199 | Over any run, a member that was none at the start came in with some event of the run, its own JOIN, registered, founding the channel or passing all three gates, and has been a member in every state since. |
| `RunTheorems.InviteStep` | src/b/ChannelCommandHandler.cpp:157-162 | An event adds at most one invited client, and only if it is an INVITE command naming the channel; an entry under +i uses one up. |
| `RunTheorems.EntriesNeedInvites` | src/c/Channel.cpp:19-22 | Over any run, entries through an invite-only door never exceed the invitations outstanding at the start plus those granted. |
| `RunTheorems.LimitStep` | src/b/CommandDispatcher.cpp:160-184 | No event takes the member count above both its old value and the limit. |
| `RunTheorems.LimitHolds` | src/b/CommandDispatcher.cpp:160-184 | While a limit stands, the member count never exceeds the larger of the limit and the count when it was set, over every run. |
| `RunTheorems.SenderOfPrefix` | bonus/Bot.cpp:221-230 | The nickname read from a client's full prefix is its nickname. |
| `RunTheorems.TextIff` | src/b/CommandDispatcher.cpp:252-323 | A PRIVMSG or NOTICE is delivered exactly when its sender is registered, gave a target and a text, and the target is a channel it is on or a valid nickname somebody holds; then each client that should hear it (everybody else on the channel, or the holder) gets the line once and nobody else gets anything; otherwise a NOTICE is silent and a PRIVMSG answers its sender with one line. |
| `RunTheorems.RelayIsFaithful` | src/b/CommandDispatcher.cpp:252-323 | The line that a deliverable PRIVMSG or NOTICE puts on the wire, framed and parsed by a receiver, gives back the sender's prefix, the target and the exact text. |
| `CommandTheorems.PermissionStep` | src/b/ChannelCommandHandler.cpp:55-220 | Whatever the event: a member disappears only by its own PART or disconnect or an operator's KICK, a topic changes only by the TOPIC of a member (an operator under +t), an invitation comes only from the INVITE of a member (an operator under +i) for an outsider. |
| `CommandTheorems.NickStep` | src/b/CommandDispatcher.cpp:103-122 | A nickname changes only by the NICK of its holder, to a valid name nobody else held. |
| `CommandTheorems.NickIff` | src/b/CommandDispatcher.cpp:103-122 | NICK takes effect exactly when the password was given, the name is valid and no other client holds it under folding. |
| `CommandTheorems.JoinIff` | src/b/CommandDispatcher.cpp:142-199 | JOIN admits an outsider exactly when it is registered, the name is valid and the channel is new or all three gates pass. |
| `CommandTheorems.KickIff` | src/b/ChannelCommandHandler.cpp:55-111 | KICK removes a member exactly when an operator names the nickname it holds in a validly spelled form. |
| `CommandTheorems.PartIff` | src/b/CommandDispatcher.cpp:202-235 | After PART the sender is not on the channel; nothing changes exactly when it was not before. |
| `CommandTheorems.InviteIff` | src/b/ChannelCommandHandler.cpp:113-168 | INVITE makes a client invited exactly when it was already, or the sender is on the channel (an operator under +i), the client is not, and the nickname is a valid spelling of its own. |
| `CommandTheorems.TopicIff` | src/b/ChannelCommandHandler.cpp:170-220 | TOPIC with a text sets it exactly when the sender is on the channel, an operator under +t. |
| `CommandTheorems.ModeIff` | src/b/ChannelCommandHandler.cpp:222-348 | MODE changes the modes as requested exactly when an operator asks for a change that can be made, and an operator flag exactly when an operator validly names a member. |
| `CommandTheorems.FrameStep` | src/b/CommandDispatcher.cpp:24-81 | What no command does: other clients, the password and channel names stay; the sender's record changes only by PASS, NICK or USER; a channel goes only when its last member leaves or is kicked; a member that stays loses its operator flag only by an operator's MODE, and an invitation is used up only by the JOIN of the invited. |
| `ModeReplies.ModeSets` | src/b/ChannelCommandHandler.cpp:258-348 | What an operator's MODE sets, by the text of its second parameter (+i -i +t -t +k -k +l -l +o -o, anything else nothing): that one thing and nothing else, a new key or limit in place of the old one whatever was set. |
| `ModeReplies.ModeReplies` | src/b/ChannelCommandHandler.cpp:222-348 | The numeric of each refusal of MODE with its parameters; otherwise the bytes every member gets. |
| `JoinReplies.JoinReplies` | src/b/CommandDispatcher.cpp:142-199 | The numeric of each refusal of JOIN, the three gates in order; otherwise each member afterwards gets the JOIN with the sender's prefix, and the sender also gets 332 with the topic, or 331 exactly when it is empty, then 353 and 366. Cut at blanks, the list of 353 has for each member exactly one word, its nickname, after an at sign exactly when it is an operator. |
| `Replies.PartReplies` | src/b/CommandDispatcher.cpp:202-235 | The numeric of each refusal of PART; otherwise the bytes every member gets. |
| `Replies.KickReplies` | src/b/ChannelCommandHandler.cpp:55-111 | The numeric of each refusal of KICK; otherwise every member, the kicked one included, gets who kicked whom and the reason (the sender's nickname when none is given). |
| `Replies.TopicReplies` | src/b/ChannelCommandHandler.cpp:170-220 | The numeric of each refusal of TOPIC; without a text 331 or 332 with the topic of that channel; otherwise the bytes every member gets. |
| `Replies.InviteReplies` | src/b/ChannelCommandHandler.cpp:113-168 | The numeric of each refusal of INVITE; otherwise 341 to the sender and the invitation to the holder of the nickname. |
| `Replies.TextReplies` | src/b/CommandDispatcher.cpp:252-323 | PRIVMSG and NOTICE: the bytes each recipient gets, and the numeric of each refusal, which NOTICE keeps silent. |
| `RegistrationReplies.PassReplies` | src/b/CommandDispatcher.cpp:83-101 | PASS: the numeric of each refusal; otherwise only the sender's password flag changes and nothing is sent. |
| `RegistrationReplies.NickReplies` | src/b/CommandDispatcher.cpp:103-122 | NICK: the numeric of each refusal, 433 exactly when another client holds the name letter by letter but for case; otherwise the sender has the nickname, is registered exactly when it has given both names, and is welcomed if it was not registered before. |
| `RegistrationReplies.UserReplies` | src/b/CommandDispatcher.cpp:124-139 | USER: the numeric of each refusal; otherwise the sender has the username and real name given, before or after NICK, is registered exactly when nickname and names are not empty, and is welcomed then. |
| `RegistrationReplies.PingReplies` | src/b/CommandDispatcher.cpp:39-44 | PING gets its token back. |
| `RegistrationReplies.PongReplies` | src/b/CommandDispatcher.cpp:335-348 | PONG changes nothing in the server state and is not answered; its last parameter is the token for the monitor. |
| `RegistrationReplies.OtherReplies` | src/b/CommandDispatcher.cpp:74-81 | Any other word is answered with 421, an empty line with nothing. |
| `RegistrationReplies.QuitReplies` | src/b/DisconnectNotifier.cpp:16-49 | The bytes of a QUIT: every other client on a common channel gets them once, with the reason, and nobody else anything. |
| `Poll.DeliveryEndToEnd` | src/a/Server.cpp:331-369 | For every live connection of the running server: bytes sent followed by the send buffer decode to exactly the messages addressed to it, and the lines executed and buffered are the lines of the bytes received. |
| `Guarantees.Between` | src/a/Server.cpp:144-269 | Of two moments of the running server, the later state is reached from the earlier one by a run. |
| `Guarantees.FrozenBetween` | src/b/ChannelCommandHandler.cpp:258-348 | A channel without operators that exists in every state between two moments has the same modes at the later one and still no operator. (A channel that was dropped and founded again in between does not count: its founder is an operator.) |
| `Guarantees.LimitBetween` | src/b/CommandDispatcher.cpp:160-184 | While a limit stands between the moments, the member count is at most the limit or at most what it was. |
| `Guarantees.RegisteredBetween` | src/b/CommandDispatcher.cpp:83-139 | A registered client that stayed connected is registered under the same username, real name and host. |
| `Guarantees.EntriesBetween` | src/c/Channel.cpp:19-22 | Entries through an invite-only door between the moments are covered by invitations open then or granted since. |
| `Guarantees.MembersCameIn` | src/b/CommandDispatcher.cpp:142-199 | Every member of a channel of the running server came in with some event of its history, by its own JOIN through the gates or as the founder, and has been a member ever since. |
| `ServerGraph.HoldersAreIndexed` | src/c/ClientRegistry.cpp:41-51 | The nickname index agrees with a linear scan of the live clients. |
| `ServerGraph.MemberFacts` | src/c/Channel.cpp:15-61 | Membership, operator flag and invitation of an object mean what the abstract channel says. |
| `ServerGraph.MemberCount` | src/c/Channel.cpp:41-41 | The size of the member map is the number of member clients. |
| `ServerGraph.PutClientKeeps` | src/c/Client.cpp:29-46 | Changing a client's own fields keeps the graph and changes only that client. |
| `ServerGraph.PutChannelKeeps` | src/c/Channel.cpp:51-63 | Changing a channel record with the same members keeps the graph when every invited client is live and outside. |
| `ServerGraph.InsertClientKeeps` | src/c/ClientRegistry.cpp:16-22 | A new client joins the store and the descriptor index only. |
| `ServerGraph.EnterKeeps` | src/c/ServerState.cpp:19-37 | Entering an existing channel records both sides, spends the invitation and keeps the graph. |
| `ServerGraph.FoundKeeps` | src/c/ServerState.cpp:19-37 | Founding a channel makes the client its operator and keeps the graph. |
| `ServerGraph.UnlinkKeeps` | src/c/ServerState.cpp:39-51 | Leaving removes both sides, deletes the channel with its last member and keeps the graph. |
| `ServerGraph.RenamedKeeps` | src/c/ClientRegistry.cpp:53-82 | A rename moves the index entry, also when only the case changes, and keeps the graph exactly when the new nickname is not empty. |
| `ServerGraph.DroppedKeeps` | src/c/ClientRegistry.cpp:24-31 | A client on no channel is taken out of the store, both indexes and every invite set without leaving a reference to it. |
| `ServerGraph.ErasedInTheEnd` | src/c/ServerState.cpp:76-95 | Leaving every channel one by one, deleting those that empty, and then forgetting the client is the erasure of exactly that client. |
| `ServerStates.ServerState.constructor` | src/c/ServerState.cpp:5-5 | Starts with no client and no channel. |
| `ServerStates.ServerState.GetClientByFd` | src/c/ClientRegistry.cpp:33-39 | Finds the client of a descriptor, or none when no live client has it. |
| `ServerStates.ServerState.GetClientByNick` | src/c/ClientRegistry.cpp:41-47 | Finds the one client holding the nickname under folding, or none when a scan finds none. |
| `ServerStates.ServerState.GetChannel` | src/c/ServerState.cpp:111-117 | Finds the channel under the folded name. |
| `ServerStates.ServerState.GetMembers` | src/c/Channel.cpp:31-39 | Lists every member once, in some order. |
| `ServerStates.ServerState.AddClient` | src/c/ServerState.cpp:15-17 | Adds exactly one blank client. |
| `ServerStates.ServerState.UpdateNick` | src/c/ClientRegistry.cpp:53-82 | Fails exactly when another client holds the name under folding; otherwise only that client's nickname changes. The index stays consistent exactly when no nickname is replaced by the empty one. |
| `ServerStates.ServerState.GetOrCreateChannel` | src/c/ServerState.cpp:119-126 | Returns the channel under the folded name, creating an empty one when there is none. |
| `ServerStates.ServerState.AddClientToChannel` | src/c/ServerState.cpp:19-37 | Both sides of the membership, the spent invitation and the founder's operator flag, as one abstract step. |
| `ServerStates.ServerState.RemoveChannelIfEmpty` | src/c/ServerState.cpp:128-134 | Deletes the channel exactly when its member map is empty. |
| `ServerStates.ServerState.RemoveClientFromChannel` | src/c/ServerState.cpp:39-51 | Removes the client from the channel, and the channel with its last member; otherwise changes nothing. |
| `ServerStates.ServerState.RemoveClientFromAllInvites` | src/c/ServerState.cpp:67-74 | Removes the client from every invite set and changes nothing else. |
| `ServerStates.ServerState.LeaveAllChannels` | src/c/ServerState.cpp:76-95 | The loop that leaves each channel of a copied list, deleting channels as it goes, ends with the client on none and all other memberships untouched. |
| `ServerStates.ServerState.RemoveClient` | src/c/ServerState.cpp:76-95 | The state afterwards is the old one with that client erased; an unknown descriptor changes nothing. |
| `Dispatcher.AddRepliesToMembers` | src/b/CommandDispatcher.cpp:357-367 | The loop produces one reply per listed member but the excepted one, in order. |
| `Dispatcher.CollectNames` | src/b/ReplyBuilder.cpp:146-166 | The names of the listed members, blanks between them and operators marked. |
| `Dispatcher.HandlePass` | src/b/CommandDispatcher.cpp:83-101 | Does what the abstract PASS decision says, state and replies. |
| `Dispatcher.MaybeRegisterClient` | src/b/CommandDispatcher.cpp:350-355 | Registers a client that has become complete and welcomes it. |
| `Dispatcher.HandleNick` | src/b/CommandDispatcher.cpp:103-122 | Does what the abstract NICK decision says, state and replies. |
| `Dispatcher.HandleUser` | src/b/CommandDispatcher.cpp:124-139 | Does what the abstract USER decision says, state and replies. |
| `Dispatcher.HandleJoin` | src/b/CommandDispatcher.cpp:142-199 | Does what the abstract JOIN decision says, state and replies. |
| `Dispatcher.HandlePart` | src/b/CommandDispatcher.cpp:202-235 | Does what the abstract PART decision says, state and replies. |
| `Dispatcher.HandleTextMessage` | src/b/CommandDispatcher.cpp:252-323 | Does what the abstract PRIVMSG/NOTICE decision says; NOTICE reports no error. |
| `Dispatcher.HandleKick` | src/b/ChannelCommandHandler.cpp:55-111 | Does what the abstract KICK decision says, state and replies. |
| `Dispatcher.HandleInvite` | src/b/ChannelCommandHandler.cpp:113-168 | Does what the abstract INVITE decision says, state and replies. |
| `Dispatcher.HandleTopic` | src/b/ChannelCommandHandler.cpp:170-220 | Does what the abstract TOPIC decision says, state and replies. |
| `Dispatcher.HandleMode` | src/b/ChannelCommandHandler.cpp:222-315 | Does what the abstract MODE decision says, state and replies. |
| `Dispatcher.ApplyOperatorMode` | src/b/ChannelCommandHandler.cpp:317-348 | Grants or revokes operator status as the abstract decision says. |
| `Dispatcher.Dispatch` | src/b/CommandDispatcher.cpp:24-81 | On the object graph every command has exactly the state change and replies of the abstract model; only QUIT asks for a disconnect; only PONG touches the health monitor; an unknown descriptor does nothing. |
| `Notifier.Build` | src/b/DisconnectNotifier.cpp:16-49 | The nested loops produce one QUIT for each other client sharing a channel, each once, and nothing for an unknown descriptor. |
| `Servers.Server.constructor` | src/a/Server.cpp:66-116 | Starts with the listening socket as the only poll entry. |
| `Servers.Server.AddFd` | src/a/Server.cpp:273-279 | Appends an entry without events. |
| `Servers.Server.RemoveFd` | src/a/Server.cpp:395-402 | Removes the entry of the descriptor and keeps the order of the others. |
| `Servers.Server.SetPollout` | src/a/Server.cpp:442-460 | Sets or clears POLLOUT on that entry only. |
| `Servers.Server.EnqueueReplies` | src/a/Server.cpp:482-491 | Every live connection gets exactly its messages, in order; POLLOUT stays set exactly where output waits. |
| `Servers.Server.AcceptClient` | src/a/Server.cpp:281-303 | Adds the client to poll entries, connections and registry alike; a failed accept changes nothing. |
| `Servers.Server.DisconnectClient` | src/a/Server.cpp:375-393 | Removes the client from poll entries, connections, registry and health monitor. |
| `Servers.Server.NotifyAndDisconnect` | src/a/Server.cpp:493-502 | Queues the QUIT notices, erases the client and logs one disconnect with the reason; every other connection is neither read nor written; afterwards the four views agree again. |
| `Servers.Server.HandleWrite` | src/a/Server.cpp:466-472 | Sends a part, clears POLLOUT exactly when nothing is left, and reports failure exactly when a non-empty send takes nothing. |
| `Servers.Server.ExecuteLine` | src/a/Server.cpp:354-367 | Pops one line and executes it; the client is gone exactly when the line was QUIT; every other connection is neither read nor written. |
| `Servers.Server.HandleRead` | src/a/Server.cpp:331-369 | Succeeds exactly when bytes arrived, the first line is not too long and no complete line is a QUIT; then all complete lines have been executed and the monitor has noted the activity. A client that said QUIT is gone with the reason "Client Quit". Every other connection is neither read nor written. |
| `Servers.Server.Receive` | src/a/Server.cpp:331-352 | The buffer stays within 8193 bytes; 512 buffered bytes before the read force a refusal. |
| `Servers.Server.WaitForEvents` | src/a/Server.cpp:157-157 | Only the event bits of the entries change. |
| `Servers.Server.HandleEntry` | src/a/Server.cpp:221-260 | A client with events is read from once if readable and flushed once if writable, or it is gone and there was a cause (failed or refused read, QUIT, failed send, hang-up), with the reason that belongs to the cause; every other connection is still there, neither read nor written. |
| `Servers.Server.HandleListening` | src/a/Server.cpp:209-217 | Accepts at most one client per pass. |
| `Servers.Server.VisitEntry` | src/a/Server.cpp:203-261 | One turn of the scan accepts the new client, or does to the client of its entry what `HandleEntry` says, or nothing without events; the entries still to visit are the rest; the index never steps below zero. |
| `Servers.Server.Scan` | src/a/Server.cpp:203-261 | One pass handles exactly the entries that had events, each once, in order, although the list grows and shrinks under way: every client without events is undisturbed, every client with events was read from and flushed exactly once or is gone for a cause, and the only new client is the accepted one. |
| `Servers.Server.Pass` | src/a/Server.cpp:157-261 | One pass of the loop: each client by the events poll reports for it, as in `Scan`, and nobody is new but the client accept returned, if the listening socket had one, with whom nothing has been exchanged. |
| `Servers.Server.Sweep` | src/a/Server.cpp:263-267 | Exactly the timed-out clients are disconnected, with the reason "Ping timeout"; with no ping outstanding, nothing changes at all. |
| `Servers.Server.OneRound` | src/a/Server.cpp:157-267 | A pass and the sweep after it, which changes nothing. |
| `Servers.Server.Run` | src/a/Server.cpp:144-269 | For every behaviour of the environment, with the states of the server before and after every round: each is accounted for by its history (registered clients are the connections, every command and every queued byte is logged); each pass treats every client by the events reported for it, as `Pass` says, and only adds to the history; no sweep changes anything, because nobody is ever pinged. At the end the invariant holds: poll entries, connections and registered clients are the same set and POLLOUT is set exactly where output waits. |
| `Servers.Server.StillFrozen` | src/b/ChannelCommandHandler.cpp:258-348 | Of two moments of one server: a channel without operators that exists in every state in between keeps its modes and has no operator. |
| `Servers.Server.StillLimited` | src/b/CommandDispatcher.cpp:160-184 | Of two moments of one server: while a limit stands, the channel does not grow beyond it. |
| `Servers.Server.StillRegistered` | src/b/CommandDispatcher.cpp:83-139 | Of two moments of one server: a registered client that stayed connected is registered as it was. |
| `MiniServ.NumbersDistinct` | bircd/exam06_miniserv/mini_serv.c:128-142 | Every client present has a number below the next one and no two share one, even when descriptors are reused. |
| `MiniServ.Conservation` | bircd/exam06_miniserv/mini_serv.c:112-275 | Bytes sent to a client plus its write buffer are the notices the others caused since it arrived; the lines it caused are exactly the lines of the bytes it sent, however chunked. |
| `MiniServ.OwedWording` | bircd/exam06_miniserv/mini_serv.c:128-189 | What each event adds to what every other client is owed, in words: the arrival, the departure, or the line with the number of its sender. |
| `MiniServ.StrJoin` | bircd/exam06_miniserv/mini_serv.c:193-211 | The joined text replaces the buffer. |
| `MiniServ.ExtractMessage` | bircd/exam06_miniserv/mini_serv.c:225-250 | Cuts the first line with its newline; finds one exactly when there is one. |
| `MiniServ.Relay.constructor` | bircd/exam06_miniserv/mini_serv.c:70-72 | Only the listening socket is watched. |
| `MiniServ.Relay.SendAll` | bircd/exam06_miniserv/mini_serv.c:112-126 | Every client but the excepted one gets the message appended, once. |
| `MiniServ.Relay.AcceptClient` | bircd/exam06_miniserv/mini_serv.c:128-142 | A new client is numbered, watched and announced to all others, and nothing has been exchanged with it yet; everybody else is neither read nor written; a failed accept changes nothing. |
| `MiniServ.Relay.HandleClient` | bircd/exam06_miniserv/mini_serv.c:146-189 | A client that is gone leaves no buffer, is announced and sent nothing more; otherwise its bytes are added and its complete lines passed on, and nothing is sent to it. Everybody else is neither read nor written. |
| `MiniServ.Relay.PassLines` | bircd/exam06_miniserv/mini_serv.c:174-188 | Each complete line gives one numbered copy per other client, in order, and none remains. |
| `MiniServ.Relay.FlushClient` | bircd/exam06_miniserv/mini_serv.c:253-275 | What the socket took moves from the buffer to the sent bytes; called only with a buffer present. |
| `MiniServ.Relay.Pending` | bircd/exam06_miniserv/mini_serv.c:78-82 | Collects exactly the clients with something to send. |
| `MiniServ.Relay.Visit` | bircd/exam06_miniserv/mini_serv.c:86-97 | One descriptor of a round: the listening socket accepts one client if readable; a client is read from once if readable and, unless it is gone, flushed once if writable; nobody else is read or written. |
| `MiniServ.Relay.Round` | bircd/exam06_miniserv/mini_serv.c:74-98 | What a round does to everybody, although clients come and go during the scan: the clients afterwards are those before without the ones found gone, and the one that accept returned if the listening socket was readable; each that stays has been read from once exactly if readable and sent once what the socket took exactly if it was writable and had output at the start; the log grows by their arrivals, departures and lines and nothing else. |
| `MiniServ.Relay.Run` | bircd/exam06_miniserv/mini_serv.c:74-98 | For every behaviour of the environment, with the state after every round: the invariant behind `Conservation` holds in each, and each follows from the one before by what `Round` says. |
| `Bots.Outbox.constructor` | bonus/Bot.cpp:56-66 | Starts empty. |
| `Bots.Outbox.Enqueue` | bonus/Bot.cpp:148-148 | The line is queued last. |
| `Bots.Outbox.FlushOutput` | bonus/Bot.cpp:166-179 | Bytes sent followed by the queue are always the bytes enqueued; the lines behind the first are untouched; a normal return with work to do has sent something. |
| `Bots.AnswerReachesSender` | bonus/Bot.cpp:213-230 | For every deliverable private message, the answer target computed from the line its receiver gets is a nickname held by the sender and nobody else; for a deliverable channel message it is that channel. |
| `Bots.HeardInOrder` | bonus/Bot.cpp:150-164 | Whatever part of a client's stream has arrived, the lines it holds are the first of the messages addressed to that client. |
| `Guarantees.WelcomedOnce` | src/b/CommandDispatcher.cpp:350-355 | In every state of the running server the messages queued to a client contain one welcome if it is registered, none if not. |

## Left out

- Socket set-up, signals, `fcntl`, logging and debug output, and closing all sockets at shutdown: foreign calls without logic.
- Reading the clock: only the forms that take the time as an argument are modelled; time is an integer, so the rounding of `difftime` is not.
- Memory allocation failure and exceptions: `mini_serv`'s `fatal` exits are left out; a failed `send` of the bot is a boolean result.
- Clients, channels and the server's connections are records in explicit stores from addresses or descriptors, not Dafny objects: a dereference is a lookup that must be shown to succeed and deletion removes the address. Reuse of an address after deletion is covered, physical memory layout is not. `Connections.Connection` is also modelled as a class of its own, proved against the same functions.
- The two maps of src/c/ClientRegistry.cpp are fields of `ServerState` rather than of an object of their own.
- The size bound of section 2.3 of RFC 1459 on every dispatched line: the code does not enforce it.
- Flushing the pending output of a client that is being disconnected: the server closes at once by design.
- Modes.LimitAcceptedIff: the clamping of `strtol` at LONG_MAX is not modelled; values beyond INT_MAX are refused either way.
- Integer overflow of `mini_serv`'s client counter after 2^31 arrivals, and the FD_SETSIZE bound of `fd_set`: descriptors are bounded by the 65536 entries of the arrays.
- Bytes after a NUL in one `recv` of `mini_serv` are dropped by its string functions; the model drops them too, and `Conservation` speaks about the bytes before it.
- The bot's command texts, its registration sequence and its connection set-up: fixed strings and foreign calls.
- The rest of bircd/, the documentation samples and the tests.
- The health monitor's read-only queries `isWaitingForPong` and `getExpectedPongToken` are field reads and have no member of their own.
