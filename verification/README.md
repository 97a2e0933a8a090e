# A model of Ship of Tools' stateful cores

Ship of Tools keeps a daemon that mirrors chat channels, starts and contains processes, and routes work to the windows
that people use. This project models the parts of it that change state from several sides at once and proves what every
run of them keeps. Code that updates fields in place is a class whose methods are proved against functions of its state;
those functions are the steps of run machines, whose theorems hold for runs of any length, any order of steps and any
number of channels, children, windows or calls.

| part | files | what is proved |
|---|---|---|
| the watched-channel cache | `ChannelCache`, `WatchModel`, `Watching`, `ChatRuns` | a channel that reads current holds the channel's own messages, with no hole, whatever was lost, late or reordered; a reconcile hides no loss |
| the listener | `SocketQueue`, `SocketStream`, `Listener` | the stream is accounted for, no wake-up is lost, one socket at a time, the pauses |
| the claim on a service | `Watching`, `ServiceRuns` | one holder, a final end, and exactly which effects a call may have after it |
| the containment registry | `Containment`, `ContainmentRuns` | a fire reaches every child, no kill goes to a pid that is not its own child's |
| the lifetime guard | `Guard`, `GuardLoops` | nothing escapes the guard, a drain to no child leaves nothing, the guard leaves as the daemon did |
| windows and page owners | `Roster`, `RosterRuns`, `Routing`, `RosterStory` | windows are counted, owners are conserved, a window remembers its last report over every redial, and the window in use is where a person reported last |
| the chat's start and stop | `ChatStart` | no service after a stop, each service stopped once |
| messages into records | `Utf8`, `Timestamps`, `Ids`, `Records`, `Wire`, `Normalizing` | what every message becomes, every record fits, cuts are marked, origin needs identity |
| records into the cache | `Intake` | what normalization yields is an event of the queue, and changes exactly its own channel at its own key |
| the replay ring | `Session` | a resumption is complete or refused, and resuming rebuilds the log |

`Wrappers` holds `Option` and `Result`. `dafny verify dfyconfig.toml` checks the project.

## The models

**The cache.** The workspace is a log of message events; a channel is what its own events make of it (`ChannelCache.Fold`):
new messages carry increasing keys, an edit names a current message, and a delete may name anything. `ChatRuns.World` puts
the log, the wire, the listener's queue, the reader's model and the answers on their way back together. Each action is one
atomic section: an event is posted, a socket connects, says hello or drops, the listener reads an event or loses it, the
reader pumps, begins, loads, fails or reconciles, a page is read at one instant between a begin and its load. An answer may be
loaded late, twice, for another channel or never. The proof rests on `ChannelCache.CatchingUp`, an invariant of a replay that
lags behind the page it replays over; it is what makes applying changes that the page already holds harmless, trimming
included.

**The listener.** A script says what each attempt and each frame of a socket meets, and what the reader did to the shared queue
meanwhile; event frames go through that queue. The trace records every step of both, so the queue at any step is a function of
the trace, and which gap a step owes depends on it.

**The containment registry.** A child is its index in the run; a pid is only a number the system may give again once its
child is reaped. A start holds the mutex from its reservation to its registration, so it is several steps of which every
other step that takes the mutex is excluded. The failed adoption's two cleanups are two steps.

**The guard.** Processes fork, exit, are reparented to the nearest living subreaper, reap their own children and become
subreapers themselves as they like, between any two of the guard's system calls.

**The roster.** A window's pages are owned by a number: the serial under which the window was first remembered. `RosterRuns` keeps, beside the roster,
every owner handed out and every owner returned as ended; `RosterStory` keeps the last report of each window and when each
lost its last connection, which no step reads.

**Records.** Text is a sequence of Unicode characters with its UTF-8 bytes written out, since the cut walks bytes. The
encoded size is counted field by field, escapes included (section 7 of RFC 8259); `Wire` has the text itself and proves that
the count is its length.

## Where the code does less than its documentation may suggest

Each of these is a lemma with a concrete run or an exact condition.

- A call that checked the claim before a stop may take effect after it, so a snapshot can complete under a stop
  (`ServiceRuns.ACallUnderWayOutlivesTheEnd` is such a run). `ServiceRuns.EffectsAfterTheEndExactly` says when a step completes
  a channel or issues a ticket after the end, and `ServiceRuns.NoCallBegunAfterTheEndTakesEffect` that calls begun after it do
  neither. Every channel reads as owing a snapshot all the same (`ServiceRuns.TheEndIsFinal`).
- An asynchronous owner whose every request failed leaves its child to the runtime, which reaps it although no request
  succeeded (`ContainmentRuns.AnAsyncChildMayBeReapedUngranted`). `ContainmentRuns.UngrantedReapsExactly` says exactly when
  that can happen.
- The guard leaves with the status of the last child it reaped under the daemon's pid in the sweep that found the daemon
  (`Guard.LeavesWithTheDaemonsStatus`). If the system gives that pid again within that sweep, it may be another process's
  (`Guard.AReusedPidTakesTheStatus` is such a run; `Guard.TheStatusIsLostExactly` says which step does it).
- A chat stopped while it starts reads off before the service that its start goes on to return has been stopped
  (`ChatStart.AStartingChatReadsOffEarly`). `ChatStart.OffBeforeStoppedExactly` says when; a chat that was running never does.
- A frontend that named itself with the empty name can be the active frontend and is never the window in use
  (`Routing.InUseIsActiveExactly`; `Routing.AnUnnamedFrontendIsActive` is a run to such a roster).
- With windows away on two computers, last used at the same instant, the computer chosen is whichever the map yields first.
  `Routing.TheRightAnswerIsOne` says that this tie is the only case in which more than one answer is right, and
  `Routing.ATieIsReached` is a run to one.
- An event larger than the whole byte budget would leave a gap and wake nobody; the bound on one message rules it out
  (`SocketStream.AnOversizedEventWouldWakeNobody`).
- A record whose text is cut gains a flag that is itself written, so "it fits without text" has to be said of the flagged form
  (`Records.FitsExactlyWhen`). Within the wire's bounds it always fits (`Normalizing.EveryRecordFits`).

One condition is on the caller alone: normalization matches no message to a supplied user identity that is not a valid id, so
`Normalizing.OwnPostIsNeverAMembers` excepts it. The program never supplies one, because it checks the identity it is told
(rust/chat/src/api.rs:400-406).

## Model

Results come first, part by part; the single calls and steps that they are about, and the lemmas in between, come after
`Session.HoldsExactly`.

| member | source | states |
|---|---|---|
| ChannelCache.ReplayOverSnapshot | rust/chat/src/watch.rs:257-279 | Whatever instant the page was read at, replaying every change since its begin ends in agreement with the channel now. |
| ChannelCache.CatchUp | rust/chat/src/watch.rs:257-279 | Replaying, one by one, changes that the page had already gone through brings it to the page's own instant. |
| ChannelCache.AgreesStep | rust/chat/src/watch.rs:85-106 | A live change keeps the held messages in agreement with the channel: own versions, no hole, within the bound. |
| ChannelCache.TrimDropsTheOldest | rust/chat/src/watch.rs:108-114 | Trimming drops only messages older than all that stay, and exactly as many as exceed the bound. |
| ChatRuns.CurrentMeansTheChannelsOwn | rust/chat/src/watch.rs:184-318 | In every run a channel that reads current, with nothing known lost and everything delivered taken, holds each message's current version, no deleted one, with no hole above its oldest and within the bound. |
| ChatRuns.OutstandingEventsHeal | rust/chat/src/watch.rs:231-318 | With events still on their way, what is held becomes the channel's own once they are applied. |
| ChatRuns.ReconcileNeverHidesALoss | rust/chat/src/watch.rs:320-331 | At a clear, the gap cleared is the last one latched, and every watched channel is complete from a snapshot whose begin had already taken that very gap. |
| ChatRuns.AnAnswerIsKeptExactly | rust/chat/src/watch.rs:257-311 | In every run the answer to a pending ticket completes its channel exactly when the reader still has the gap it had at the begin, none newer comes with the answer, and at most as many changes of the channel were taken since as an overlay holds; otherwise a snapshot is owed again. |
| ChatRuns.ReconcileClearsExactly | rust/chat/src/watch.rs:320-331 | A reconcile clears exactly when the service runs, every watched channel is complete and the gap held is the reader's, and otherwise does nothing. |
| WatchModel.ARoundCompletes | rust/chat/src/watch.rs:238-279 | A channel that owes a snapshot gets the next ticket, and its answer completes it with the changes that came meanwhile replayed, when no newer gap was seen and they were not too many. |
| WatchModel.OverflowsExactly | rust/chat/src/watch.rs:304-311 | An overlay overflows exactly at one change more than it may hold, and until then holds every change in order. |
| ChatRuns.LoadedAgrees | rust/chat/src/watch.rs:257-279 | A kept answer, with its overlay and then everything outstanding replayed, agrees with the channel. |
| ChatRuns.StepKeepsInv | rust/chat/src/watch.rs:127-341 | Every step of workspace, network, listener and reader keeps the invariant. |
| SocketStream.NoWakeupIsLost | rust/chat/src/socket.rs:148-212 | Whenever an event is queued or a gap is owed to the reader, the next wait ends at once and a parked one is woken. |
| SocketStream.TheStreamIsAccountedFor | rust/chat/src/socket.rs:194-212 | Taken and waiting events are, in order, exactly those heard and not lost; each lost one left a gap numbered above all read before. |
| SocketStream.StepOn | rust/chat/src/socket.rs:194-338 | Each critical section of the shared object is the stream's step of its name, in queue, gap, notification and number. |
| SocketStream.WaitOn | rust/chat/src/socket.rs:148-169 | A wait that does not sleep is the stream's look, and then a wake if one is due. |
| SocketStream.AnOversizedEventWouldWakeNobody | rust/chat/src/socket.rs:28-30 | The wake fails exactly for an event larger than the byte budget. |
| Listener.Worker.Run | rust/chat/src/socket.rs:431-613 | The loop's whole trace: one socket at a time; every frame of every attempt read to its end; each hello, each frame too large or unreadable, each event no record can carry or the queue has no room for and each retire gone on from latched at once with rising numbers, and no other gap; every other event queued or ignored; and exactly the pauses the attempts ask for. |
| Listener.EventsReadAreAccountedFor | rust/chat/src/socket.rs:593-613 | What the reader took and what waits are, in order, what waited before and every message event read whose gap was not latched next. |
| Listener.LatchedLossesAccount | rust/chat/src/socket.rs:431-613 | What each step does to queue and gap in its own case: an unrepresentable event leaves a failure, a message is appended or leaves an overflow, and so on for every frame. |
| Listener.PausesStartAgain | rust/chat/src/socket.rs:431-474 | After a hello, or before any, the k-th attempt without one is followed by min(first * 2^k, max). |
| Listener.ReadsToTheEnd | rust/chat/src/socket.rs:516-564 | A socket's frames are read from the first to the first that ends it. |
| Listener.ObservedTracesAreSound | rust/chat/src/socket.rs:431-613 | A trace the monitor follows opens one socket at a time, retires before opening, numbers its gaps upward, and latches exactly the losses its frames mean for the queue as it then is, overflows included, at once and under their own causes. |
| ServiceRuns.AtMostOneWatches | rust/chat/src/service.rs:169-173 | At most one holder of a service lives, none is given out beside it, and a stop that is over has ended the claim. |
| ServiceRuns.TheEndIsFinal | rust/chat/src/watch.rs:162-176 | An ended claim stays ended and gives out no holder, and every channel of the one given reads as owing a snapshot, whatever is loaded. |
| ServiceRuns.EffectsAfterTheEndExactly | rust/chat/src/watch.rs:200-279 | After the end a step completes a channel, or issues a ticket, if and only if it is the effect of a load with an answer that is kept, or of a begin of a channel that owes one, that looked at the claim before the end. |
| ServiceRuns.NoCallBegunAfterTheEndTakesEffect | rust/chat/src/watch.rs:200-255 | From an instant at which the claim has ended and no call is under way, no channel ever completes and no ticket is ever issued. |
| ServiceRuns.ACallUnderWayOutlivesTheEnd | rust/chat/src/watch.rs:250-255 | A run in which a load that looked before the end completes its channel after it, with the stop over and the channel read as owing. |
| ContainmentRuns.AFireReachesEveryChild | rust/containment/src/signal.rs:60-82 | Once any fire has returned, every child ever created had a request attempted, and a fire without error left the registry empty. |
| ContainmentRuns.NothingStartsAfterAFire | rust/containment/src/signal.rs:116-127 | After that no start creates a process. |
| ContainmentRuns.EveryKillHitsItsOwnLeader | rust/containment/src/signal.rs:303-355 | Every kill, by fire, release, drop or cleanup, goes to its own child while unreaped, and no other unreaped child has that pid. |
| ContainmentRuns.ReapsFollowRequests | rust/containment/src/signal.rs:452-620 | A child that was reaped had a request attempted, and one granted unless it is asynchronous and all its owners are gone. |
| ContainmentRuns.UngrantedReapsExactly | rust/containment/src/signal.rs:432-620 | In every run, a child on which no request was granted can be reaped if and only if it is asynchronous, every owner of it is gone and no start holds it. |
| ContainmentRuns.AGrantIsBothKills | rust/containment/src/contain.rs:145-167 | In every run a request is granted only when the kills of the group and of the leader both succeeded. |
| ContainmentRuns.AnAsyncChildMayBeReapedUngranted | rust/containment/src/signal.rs:432-450 | A run to such a reap: its child was asked twice and refused. |
| ContainmentRuns.StepKeepsInv | rust/containment/src/signal.rs:60-450 | Every section of every start, fire and owner keeps the invariant. |
| GuardLoops.WaitForDaemon | rust/containment/src/guard.rs:134-173 | The loop ends in the first round that finds the daemon, with its status. In each round before, in order, it stops with a stopped daemon and continues it, then forwards the signal read unless it only says a child changed, and makes no other call. |
| GuardLoops.EverySignalIsForwarded | rust/containment/src/guard.rs:134-173 | Apart from a continue after each stop, the daemon is sent in order exactly the signals read. |
| GuardLoops.Drain | rust/containment/src/guard.rs:236-258 | The drain kills exactly the children listed in each round until a sweep finds none or the time is up, and then names that round's. |
| Guard.NothingEscapesTheGuard | rust/containment/src/guard.rs:238-258 | In every run each process not yet reaped is below the guard, at any depth. |
| Guard.OnlyAReapRemoves | rust/containment/src/guard.rs:140-258 | A process leaves the forest only ended and reaped by its own parent. |
| Guard.ADrainToNoChildLeavesNone | rust/containment/src/guard.rs:238-258 | A drain that ends on no child leaves no process alive or unreaped. |
| Guard.EverySignalIsToAnOwnChild | rust/containment/src/guard.rs:140-258 | Every pid signaled is then the guard's own unreaped child. |
| Guard.LeavesWithTheDaemonsStatus | rust/containment/src/guard.rs:140-211 | The guard leaves with the status of the last child reaped under the daemon's pid in the finding sweep, of which the daemon was the first; so with the daemon's exactly when those two are the same. |
| Guard.TheStatusIsLostExactly | rust/containment/src/guard.rs:195-211 | In every run a step makes the status another process's if and only if it is a wait, in the finding sweep, for a child given the daemon's pid that ended differently. |
| Guard.AReusedPidTakesTheStatus | rust/containment/src/guard.rs:195-211 | That exception, as a run. |
| Guard.LeavesAsTheDaemonDid | rust/containment/src/guard.rs:260-283 | An exit code is passed on, a fatal signal is raised again or reported as 128 plus its number, without a core. |
| RosterRuns.WindowsAreCounted | rust/backend/src/clients_window.rs:78-109 | A window's live count is its connections', it is marked left exactly when it has none, at most the bound are away, and no live window is forgotten. |
| RosterRuns.OwnersAreConserved | rust/backend/src/clients_window.rs:78-109 | Every owner handed out has exactly one holder or was ended exactly once, and a live connection opens the pages of the owner it was handed. |
| RosterRuns.AnEndedOwnerIsNotHandedOut | rust/backend/src/clients_window.rs:78-91 | An ended owner is never handed out again. |
| RosterRuns.AWindowsUseIsOneFact | rust/backend/src/clients_window.rs:120-131 | Every named connection of a window carries the window's own last use. |
| RosterStory.AWindowRemembersItsLastReport | rust/backend/src/clients_window.rs:78-131 | In every run a window's last use is the last report of a named frontend of it over all its connections, and its mark is when the last of them left. |
| RosterStory.ARegistrationStartsWithTheLastReport | rust/backend/src/clients_window.rs:78-91 | A redial starts with its window's last report, and a new connection with none. |
| RosterStory.TheForgottenWasAwayLongest | rust/backend/src/clients_window.rs:93-109 | A departure forgets a window exactly when more than the bound would be away, and then one that lost its last connection first. |
| RosterRuns.StepKeepsInv | rust/backend/src/clients.rs:216-503 | Every registration, departure and input keeps the roster's two maps in step. |
| Routing.TheAnswerIsRight | rust/backend/src/clients_show.rs:67-84 | The answer is the live window used last, used strictly after every window away, or one on the computer of the latest used window away, or nobody. |
| Routing.TheRightAnswerIsOne | rust/backend/src/clients_show.rs:67-84 | More than one answer is right if and only if windows away on different computers lead together. |
| Routing.InUseIsRightInEveryRun | rust/backend/src/clients_show.rs:49-84 | In every run of the roster the answer is right. |
| RosterStory.InUseIsWhereAPersonReportedLast | rust/backend/src/clients_show.rs:67-84 | In every run the window in use is where a person reported last: live, or on the computer of the window away. |
| RosterStory.EveryRunHasAStory | rust/backend/src/clients_window.rs:78-131 | Every run of the roster has such a history. |
| Routing.ACommandGoesWhereItShould | rust/backend/src/clients_show.rs:49-58 | In every run the preview pane's commands and no others go to every window, a relaunch to the recently and last used frontend or to nobody, and any other command where the right answer says. |
| Routing.AnOwnerFindsItsWindow | rust/backend/src/clients_window.rs:47-61 | In every run a page owner resolves to the newest live window that was handed it, and to none exactly when there is none. |
| Routing.InUseIsActiveExactly | rust/backend/src/clients.rs:368-384 | The recent window in use is the active frontend exactly when no later-used frontend has the empty name. |
| Routing.AnUnnamedFrontendIsActive | rust/backend/src/clients.rs:368-384 | A run to a roster whose active frontend has the empty name, with a relaunch sent to it and a page to another. |
| Routing.ATieIsReached | rust/backend/src/clients_window.rs:112-117 | A run to a roster in which windows away on two computers lead together. |
| ChatStart.NoServiceAfterAStop | rust/backend/src/chat.rs:249-266 | Once a stop was requested of a starting or running chat, no service is handed out. |
| ChatStart.EveryServiceIsStoppedOnce | rust/backend/src/chat.rs:330-363 | A service the start returned is stopped exactly once if a stop was requested and never otherwise, and a running chat reads off only after it. |
| ChatStart.OffBeforeStoppedExactly | rust/backend/src/chat.rs:204-239 | In every run a chat that reads off has a service not yet stopped if and only if its start has returned it to a task that has not acted or its late stop is under way; the stop was then requested while it was starting. |
| ChatStart.AStartingChatReadsOffEarly | rust/backend/src/chat.rs:204-239 | A run in which a chat stopped while starting reads off with its service not stopped, and still with its late stop under way. |
| ChatStart.ARefusedStartSaysWhy | rust/backend/src/chat.rs:224-229 | A chat whose start was refused and that nobody stopped reads off with the refusal's code. |
| Utf8.CutTo | rust/chat/src/normalize.rs:110-119 | The byte walk back to a character boundary gives the longest beginning in whole characters that fits. |
| Utf8.BoundariesAreCharacters | rust/chat/src/normalize.rs:110-119 | A byte is a boundary exactly when whole characters end there. |
| Timestamps.KeysOrderAsNumbers | rust/chat/src/normalize.rs:102-107 | Timestamps are ordered, and equal, exactly as the numbers they spell. |
| Records.Fit | rust/chat/src/normalize.rs:150-173 | The halving loop ends, with the record its specification gives. |
| Records.FittedIsABeginning | rust/chat/src/normalize.rs:163-171 | Fitting changes only text and flag, the text to a beginning in whole characters, flagged exactly when cut. |
| Records.FitsExactlyWhen | rust/chat/src/normalize.rs:163-171 | The fitted record fits exactly when the record did or its flagged form without text does. |
| Records.WithinBoundsFits | rust/protocol/src/chat.rs:8-17 | Every record within the wire's bounds is fitted, and cut text keeps at least 1900 bytes. |
| Wire.TheSizeIsTheTexts | rust/protocol/src/chat.rs:132-162 | The size compared with the cap is the length in bytes of the JSON text sent. |
| Wire.AFittedRecordIsSent | rust/chat/src/normalize.rs:161-172 | Every bounded record, once fitted, is sent as at most 32 KiB. |
| Normalizing.NewExactly | rust/chat/src/normalize.rs:49-68 | A message becomes new exactly when it has no subtype, or one of the four of messages, and a readable timestamp. |
| Normalizing.EditedExactly | rust/chat/src/normalize.rs:69-85 | It becomes an edit exactly when its subtype says a message changed and the object inside has such a subtype and a readable timestamp. |
| Normalizing.DeletedExactly | rust/chat/src/normalize.rs:86-94 | It becomes a delete exactly when it says so with a readable timestamp, and of that timestamp. |
| Normalizing.UnsupportedExactly | rust/chat/src/normalize.rs:69-96 | It is ignored exactly when its subtype, or that of the message inside an edit, is another text. |
| Normalizing.RecordIsOf | rust/chat/src/normalize.rs:150-185 | A new record has the message's timestamp and thread, and an edit's record those of the message inside it. |
| Normalizing.ARecordHasItsMessagesFields | rust/chat/src/normalize.rs:225-281 | A readable record's reply count, latest reply, author and files are the message's own fields. |
| Normalizing.OmittedExactly | rust/chat/src/normalize.rs:225-281 | A record leaves its content out exactly when a field it would be made of cannot be read, the username counting only where the name is taken from it. |
| Normalizing.TheAuthorIsNamed | rust/chat/src/normalize.rs:243-260 | A readable record shows a member under the member's name, a bot under the bot's and an own post under the name recovered with its origin. |
| Normalizing.BotNameMeans | rust/chat/src/normalize.rs:323-336 | A bot goes by the customized username, then by its profile's name, each only if something is left of it, then by a fixed word. |
| Normalizing.MemberNameMeans | rust/chat/src/normalize.rs:339-350 | A member goes by the displayed name, then by the real one, each only if something is left of it, otherwise by none. |
| Normalizing.NoMessageIsDropped | rust/chat/src/normalize.rs:49-100 | A message gives a record exactly when its timestamp can be read, whatever else it holds, with its own workspace, channel, timestamp and readable thread. |
| Normalizing.OwnOriginNeedsTheOwnIdentity | rust/chat/src/normalize.rs:188-191 | A message is taken for the app's own post only when it carries the supplied identity and could be read. |
| Normalizing.OwnPostIsNeverAMembers | rust/chat/src/normalize.rs:175-223 | A message that carries the supplied identity is never a member's, readable or not, except exactly when that identity is a malformed user id and no bot mark is present. |
| Normalizing.TextNeverDecidesTheOrigin | rust/chat/src/normalize.rs:10-13 | With any other text, a message has the same origin. |
| Normalizing.PostedNameIsRecovered | rust/chat/src/normalize.rs:282-321 | The kind and name an own post spells in its username are recovered from it. |
| Normalizing.MetadataDecides | rust/chat/src/normalize.rs:282-301 | The kind and name in the app's own metadata come before the username. |
| Normalizing.CutsAreMarked | rust/chat/src/normalize.rs:225-281 | The text is a beginning of the message's, and the record is flagged exactly when its text, a name or a file's field was cut. |
| Normalizing.EveryRecordFits | rust/chat/src/normalize.rs:150-173 | Every record is within the wire's bounds and the byte cap, and keeps its whole 8 KiB or at least 1900 bytes of text. |
| Normalizing.FilesAreAccountedFor | rust/chat/src/normalize.rs:352-408 | Every file entry is summarized or counted, at most eight are summarized, and each summary is of an entry. |
| Normalizing.FilesAreListed | rust/chat/src/normalize.rs:352-408 | A readable entry is left out only when there are eight summaries. |
| Normalizing.FilesAreInOrder | rust/chat/src/normalize.rs:352-408 | The summaries are of the first readable entries in their order, and a cut is marked exactly when one of those was cut. |
| Normalizing.ListingMeans | rust/chat/src/normalize.rs:360-405 | What one file entry gives: nothing without a valid id, an id alone for a stub, and otherwise its name or title, type, size and thumbnail. |
| Intake.AnEventChangesItsOwnChannel | rust/chat/src/watch.rs:291-318 | From the message's own fields: a message is put as new and a changed one as an edit, at its own timestamp's key in its own channel, unless it is a reply; a delete removes its key; nothing else changes a channel. |
| Intake.KeysAreTheTimestamps | rust/chat/src/watch.rs:85-106 | The cache's keys are equal and ordered as the timestamps' keys are. |
| Session.RefusedExactlyWhenAnEventIsGone | rust/backend/src/session.rs:82-91 | For a client that has seen something, a replay is refused exactly when an event it has not seen is no longer held. |
| Session.ResumingRebuildsTheLog | rust/backend/src/session.rs:5-8 | A client that always resumes from what it has reached ends with the whole log, each event once and in order. |
| Session.HoldsExactly | rust/backend/src/session.rs:64-80 | The ring holds exactly the latest revisions, as many as it has room for. |
| ChannelCache.EvictedIsOld | rust/chat/src/watch.rs:108-114 | What a trim evicts has at least as many newer posts as the bound keeps. |
| ChannelCache.CatchUpPost | rust/chat/src/watch.rs:85-114 | Replaying a new message the page may already hold, with the trim after it, keeps the lagging replay sound. |
| ChannelCache.CatchUpStep | rust/chat/src/watch.rs:85-106 | Replaying any one change that the page's reader had already seen brings the replay one step closer to the channel. |
| ChannelCache.StayCaughtUp | rust/chat/src/watch.rs:291-318 | From there every later change keeps the held messages in agreement. |
| ChannelCache.PageCatchesUp | rust/chat/src/watch.rs:257-279 | A trimmed page read at some instant, with all changes since an earlier instant replayed over it, is the channel at the page's instant. |
| Watching.TrimMessages | rust/chat/src/watch.rs:108-114 | The loop that evicts while over the bound leaves exactly the newest messages. |
| Watching.ApplyChange | rust/chat/src/watch.rs:85-106 | One change to the held messages: an edit of what is held, a delete, or a new message under the bound. |
| Watching.Collect | rust/chat/src/watch.rs:257-279 | The page's top-level records of this channel by key, the later of two winning. |
| Watching.ReplayOverlay | rust/chat/src/watch.rs:257-279 | The overlay applied in order over the trimmed page. |
| Watching.Watches.Watch | rust/chat/src/watch.rs:142-155 | A channel is watched unless its id is invalid or the bound is reached; a watched one stays as it is. |
| Watching.Watches.Unwatch | rust/chat/src/watch.rs:157-160 | The channel is forgotten and nothing else changes. |
| Watching.Watches.State | rust/chat/src/watch.rs:167-176 | What a caller sees of a channel, a snapshot owed by every channel once the claim has ended. |
| Watching.Watches.Sync | rust/chat/src/watch.rs:184-198 | A newer gap is adopted and every complete channel owes a snapshot again. |
| Watching.Watches.ApplyEvent | rust/chat/src/watch.rs:291-318 | An event reaches its own channel alone: applied, recorded, or the overlay overflows for good. |
| Watching.Watches.ApplyTaken | rust/chat/src/watch.rs:231-236 | The gap first, then every event in order. |
| Watching.Watches.BeginTaken | rust/chat/src/watch.rs:238-248 | What is taken is applied before a ticket is issued, and only to a channel that owes a snapshot. |
| Watching.Watches.Begin | rust/chat/src/watch.rs:200-208 | A begin against a service that this value does not own takes nothing from it. |
| Watching.Watches.Pump | rust/chat/src/watch.rs:210-217 | Everything the owned service holds is taken and applied. |
| Watching.Watches.LoadAt | rust/chat/src/watch.rs:257-279 | An answer is kept, asked for again or ignored, with the channel's whole new state. |
| Watching.Watches.Load | rust/chat/src/watch.rs:250-255 | A load against an ended or foreign service changes nothing. |
| Watching.Watches.Fail | rust/chat/src/watch.rs:281-289 | Only the pending ticket's own failure returns the channel to owing a snapshot. |
| Watching.Watches.Reconcile | rust/chat/src/watch.rs:320-331 | The gap is cleared only when every channel is complete and the service still holds that very gap. |
| Watching.Watches.Drop | rust/chat/src/watch.rs:334-341 | A dropped holder frees the claim unless it has ended. |
| WatchModel.WatchMeans | rust/chat/src/watch.rs:142-155 | A valid channel is watched once while there is room, owing a snapshot; nothing else changes. |
| WatchModel.UnwatchMeans | rust/chat/src/watch.rs:157-159 | The channel is forgotten with all it held, and nothing else changes. |
| WatchModel.StandingMeans | rust/chat/src/watch.rs:167-176 | What a caller sees of a channel in each phase, and after the end. |
| WatchModel.SyncMeans | rust/chat/src/watch.rs:184-198 | A gap numbered above those taken so far is adopted and exactly the complete channels owe a snapshot again. |
| WatchModel.FailMeans | rust/chat/src/watch.rs:281-289 | Exactly the pending ticket's failure makes its channel owe a snapshot again. |
| WatchModel.ResyncMeans | rust/chat/src/watch.rs:257-270 | An answer is stale exactly when it is not the pending one, and an unsafe one leaves its channel owing a snapshot. |
| Watching.Claim.CompareExchange | rust/chat/src/service.rs:169-173 | The claim moves only from the value expected. |
| Watching.Service.GiveWatches | rust/chat/src/service.rs:169-173 | A holder is given out only by a running service whose claim is free. |
| Watching.Service.Take | rust/chat/src/service.rs:202-211 | Only the owner of a running service takes anything, the gap and all events together. |
| Watching.Service.Reconciled | rust/chat/src/service.rs:213-218 | A gap is cleared through a running service only, and only the very gap it holds. |
| Watching.Service.Stop | rust/chat/src/service.rs:232-248 | A stop ends the claim for good. |
| WatchModel.AppliedByChannel | rust/chat/src/watch.rs:291-318 | A batch of events gives each channel its own changes in order and moves nothing else. |
| WatchModel.PumpedChannel | rust/chat/src/watch.rs:231-236 | A pump demotes a complete channel on a newer gap, and otherwise gives each its own changes. |
| WatchModel.TookAllMeans | rust/chat/src/watch.rs:291-318 | A pending channel keeps its messages and records every change or overflows; any other applies them. |
| WatchModel.CollectedIsThePage | rust/chat/src/watch.rs:257-279 | Collecting an answer's records gives the page of the channel it was read from, replies and strangers left out. |
| WatchModel.LoadedShape | rust/chat/src/watch.rs:257-279 | A load makes no channel pending, and none complete but the one answered. |
| ChatRuns.KeptExactlyWhenNothingWasLost | rust/chat/src/watch.rs:257-279 | An answer is kept exactly when its ticket is outstanding, its overlay never overflowed and no newer gap was seen or comes with it. |
| ChatRuns.KeptWasBegunAfterTheGap | rust/chat/src/watch.rs:257-279 | A kept answer's ticket was issued at a begin that had taken the gap the reader still has. |
| ChatRuns.PumpKeepsInv | rust/chat/src/watch.rs:210-236 | Taking the gap and events under one lock keeps every channel sound. |
| ChatRuns.BeginKeepsInv | rust/chat/src/watch.rs:200-248 | A begin that takes everything first leaves its overlay nothing to miss. |
| ChatRuns.LoadKeepsInv | rust/chat/src/watch.rs:250-279 | Loading any answer, at any time, with any gap read, keeps every channel sound. |
| ChatRuns.ANewerLossIsNotCleared | rust/chat/src/watch.rs:324-331 | A loss latched after the gap was read makes the clear refuse, and the newer gap stays. |
| SocketQueue.Numbers.Next | rust/chat/src/socket.rs:125-130 | Gap numbers rise over the whole process. |
| SocketQueue.Shared.Latch | rust/chat/src/socket.rs:194-197 | A loss replaces the gap in force by one with a new number. |
| SocketQueue.Shared.Push | rust/chat/src/socket.rs:199-212 | An event is queued and the waiter notified, or a gap is latched and nobody is. |
| SocketQueue.Shared.Listen | rust/chat/src/socket.rs:593-613 | An unsupported event changes nothing; an unrepresentable one leaves a failure under the next number and a notification; any other is appended with a notification, or leaves an overflow under the next number. |
| SocketQueue.Shared.Take | rust/chat/src/socket.rs:318-323 | The gap stays, the queue is handed over whole and in order. |
| SocketQueue.Shared.Reconciled | rust/chat/src/socket.rs:331-338 | Only the gap in force is cleared, by its number. |
| SocketQueue.Shared.WaitNow | rust/chat/src/socket.rs:148-169 | What a wait answers at once: a queued event, or a gap with its notification. |
| SocketQueue.PushKeepsCount | rust/chat/src/socket.rs:199-212 | The byte count stays the sum of the queue's costs, within both bounds. |
| SocketQueue.EmptyQueueOverflowsOnlyOnAnOversizedEvent | rust/chat/src/socket.rs:26-30 | An empty queue refuses an event exactly when it alone exceeds the byte budget. |
| Listener.ObservedCounts | rust/chat/src/socket.rs:431-468 | The monitor's open flag is the number of sockets opened and not yet retired. |
| Listener.DelayDoubles | rust/chat/src/socket.rs:470-474 | Doubling and capping from attempt to attempt is the capped power of two. |
| Listener.Worker.NextBackoff | rust/chat/src/socket.rs:470-474 | The pause after the k-th attempt without a hello, and the next. |
| Listener.Worker.Handle | rust/chat/src/socket.rs:566-613 | One frame: a hello latches a reconnect, one that cannot be read or is too large a failure, an event goes to the queue. |
| Listener.Worker.Hear | rust/chat/src/socket.rs:593-613 | An event frame is queued or ignored, or leaves its failure or overflow within the same section. |
| Listener.Worker.Serve | rust/chat/src/socket.rs:516-564 | Every frame up to the one that ends the socket is read, what each lost is latched before the next, and the socket is retired; whether it said hello. |
| Listener.Worker.Round | rust/chat/src/socket.rs:431-468 | One attempt, its pause and the backoff after it, or a stop. |
| Listener.Worker.Connect | rust/chat/src/socket.rs:431-468 | One attempt: what was read of it, whether it said hello, and the reconnect latched after it unless stopped. |
| ServiceRuns.CompletesExactly | rust/chat/src/watch.rs:231-331 | Of all the calls, only a load with an answer that is kept completes a channel. |
| ServiceRuns.EveryCallLooked | rust/chat/src/watch.rs:200-255 | Every call under way looked at the claim at some instant when it had not ended. |
| Containment.Signal.Fire | rust/containment/src/signal.rs:60-82 | Every registered tree is asked once; those refused stay registered, and the registry closes only when none does. |
| Containment.Signal.ClaimExit | rust/containment/src/signal.rs:85-87 | Only the first caller claims the exit. |
| Containment.Signal.Reserve | rust/containment/src/signal.rs:116-127 | A start is refused once the flag is up or the registry has closed. |
| Containment.Signal.Fill | rust/containment/src/signal.rs:403-418 | An adopted tree is registered under a new id. |
| Containment.Signal.Release | rust/containment/src/signal.rs:420-430 | A release asks its tree and forgets it only when the request succeeds. |
| Containment.ContainedStd.Kill | rust/containment/src/signal.rs:558-569 | A kill releases before it reaps, and reaps nothing when the release fails. |
| Containment.ContainedStd.Wait | rust/containment/src/signal.rs:534-556 | A wait observes the exit, releases, and only then reaps. |
| Containment.ContainedStd.WaitWithin | rust/containment/src/signal.rs:571-595 | It answers no status only after a request succeeded and the reap was confirmed. |
| ContainmentRuns.SweepAsksAll | rust/containment/src/signal.rs:60-82 | A sweep leaves no child unasked, because no start is between its creation and its registration. |
| ContainmentRuns.CleanUpRequests | rust/containment/src/signal.rs:331-354 | A failed start's cleanup asks its own child, and reaps it only if a request succeeded. |
| Guard.Reap | rust/containment/src/guard.rs:195-211 | One sweep answers the last status reaped under the daemon's pid, and says whether the guard then has any child. |
| GuardLoops.WaitingSignalsTheDaemon | rust/containment/src/guard.rs:134-173 | While it waits the guard signals the daemon alone, and continues it whenever it stopped with it. |
| GuardLoops.FoundExactly | rust/containment/src/guard.rs:195-211 | A sweep answers a status exactly when it reaped the daemon. |
| GuardLoops.FoundIsTheLast | rust/containment/src/guard.rs:195-211 | The status found is that of the last child reaped under the daemon's pid. |
| Guard.OwnChildrenStay | rust/containment/src/guard.rs:214-236 | Nothing but the guard's own wait takes a child from it, so a pid once listed names the same child when it is killed. |
| Roster.Clients.Register | rust/backend/src/clients.rs:216-264 | A connection arrives with a fresh serial and its window's owner and last use, or its own. |
| Roster.Clients.FindLongestAway | rust/backend/src/clients_window.rs:93-109 | The window left longest ago, by instant and then by key. |
| Roster.Clients.DropGuard | rust/backend/src/clients.rs:465-503 | A departure counts its window down, marks it away, and past the bound forgets one and returns its owner. |
| Roster.Clients.TouchPersonInput | rust/backend/src/clients.rs:275-284 | A person's input stamps the connection's window and every named connection of it. |
| Roster.Clients.StampWindow | rust/backend/src/clients_window.rs:120-131 | Exactly the connections of the window carry the new use. |
| Roster.AwayLongerTotal | rust/backend/src/clients_window.rs:93-109 | Of two windows away one was away longer, so the one forgotten is determined. |
| Routing.ATieHasTwoAnswers | rust/backend/src/clients_show.rs:67-84 | Windows away on two computers that lead together make two different answers right. |
| Routing.AwayLeadsExactly | rust/backend/src/clients_window.rs:112-117 | The away branch is taken exactly when a window away leads. |
| Routing.ActiveLeads | rust/backend/src/clients.rs:368-384 | The active frontend is the last used of those recently used, and is missing only when there is none. |
| ChatStart.Phases.SetOff | rust/backend/src/chat.rs:106-119 | The phase becomes off with its status, whatever it was. |
| ChatStart.Phases.Begin | rust/backend/src/chat.rs:178-238 | A chat with a configuration starts, and otherwise is off. |
| ChatStart.Phases.StartCompletes | rust/backend/src/chat.rs:178-238 | A start that returns is adopted only while still starting; a service that comes too late is stopped. |
| ChatStart.Phases.RequestStop | rust/backend/src/chat.rs:330-352 | A starting chat is aborted, a running one stopped, any other left alone. |
| Utf8.CutIsLongest | rust/chat/src/normalize.rs:110-119 | A beginning fits exactly when it is no longer than the cut. |
| Utf8.EscapingGrows | rust/chat/src/normalize.rs:163-171 | Escaping grows text at most six-fold, and two-fold without controls. |
| Timestamps.PartsAreReadable | rust/chat/src/normalize.rs:102-107 | Neither part can exceed the integer it is read into, so the fallback of zero is never taken. |
| Timestamps.LeadingZerosDoNotCount | rust/chat/src/normalize.rs:102-107 | A zero before the seconds changes nothing in the order. |
| Normalizing.Summarize | rust/chat/src/normalize.rs:352-408 | The file loop's accumulators are the first eight summaries, the capped count of the rest and whether a kept field was cut. |
| Normalizing.Clean | rust/chat/src/normalize.rs:121-126 | A cleaned name has no controls and is within its bound. |
| Normalizing.InvalidPlaces | rust/chat/src/normalize.rs:49-58 | Why nothing is made of a value that is no object, or of an invalid workspace or channel. |
| Normalizing.CleanKeepsAName | rust/chat/src/normalize.rs:121-126 | A name that needs no cleaning is left as it is, unmarked. |
| Normalizing.CleanMarksCuts | rust/chat/src/normalize.rs:121-126 | A cleaned name is a beginning of the trimmed text, marked exactly when it is not all of it. |
| Normalizing.OnlyControlsGo | rust/chat/src/normalize.rs:121-126 | Exactly the control characters are removed. |
| Normalizing.DraftKeepsIdentity | rust/chat/src/normalize.rs:175-185 | Read whole or by its identity alone, a message keeps its place, thread and author's id. |
| Normalizing.Build | rust/chat/src/normalize.rs:150-173 | The record of an object: read whole, or by its identity alone, then fitted. |
| Normalizing.DraftedOrigin | rust/chat/src/normalize.rs:188-281 | When a record's origin is the app's own, and when a member's, in terms of what was read. |
| Intake.PageKeepsTopLevel | rust/chat/src/watch.rs:257-279 | A record of a page is kept exactly when it is the channel's and its two timestamps have one key. |
| Intake.EveryResultIsReadable | rust/chat/src/normalize.rs:49-100 | Every result that carries timestamps carries valid ones. |
| Session.Session.Bump | rust/backend/src/session.rs:64-80 | A new event has the next revision, and the ring stays the log's end. |
| Session.Session.ReplayAfter | rust/backend/src/session.rs:85-91 | The answer is the log's events after the revision, or a refusal. |

## Left out

- Normalizing.FilesAreAccountedFor: says nothing of more than 2^32 - 1 file entries, where the source's count saturates as the
  model's does.
- Session.Session.ReplayAfter: a revision of zero is answered with whatever the ring holds, as in the source, and no
  completeness is claimed of it; revisions are unbounded, so 64-bit wrap-around is not modelled.
- Roster.Clients.DropGuard: leaves out the instant kept under the name of a connection that had declared its sessions
  (rust/backend/src/clients.rs:481-487), which only a listing reads.
- GuardLoops.WaitForDaemon: takes the system's answers round by round as its input; what other processes do between two calls
  is in `Guard`.
- GuardLoops.Drain: the same.
- ChatRuns: a begin is always against the service that gave out the holder (`Watching.Watches.Begin` has the other case, which
  takes nothing), and answers asked for by a dropped holder are dropped with it, as their channel is.
- Watching: `messages()` and the asynchronous `wait` around the queue's own; waits that are cancelled.
- Slack delivering an event twice, and source timestamps that go backwards.
- The refusal of a scoped page whose window was not used lately (rust/backend/src/clients_show.rs:25-47): one comparison with
  the clock.
- Real time: deadlines, idle and ping timers, and how long a drain may take are choices the environment makes.
- Deriving an account's and a connection's declared sessions, disconnected intervals, the list of sites of windows away and the
  per-caller numbers (rust/backend/src/clients.rs:193-347): single lookups.
- The row and folder mapping of the chat (rust/backend/src/chat.rs:121-153, 268-320): lookups without mutation.
- Websocket frames, TLS, DNS and Slack's Web API: a frame is an already parsed event and a page an input.
- Windows jobs, suspended starts and console events, and the macOS listings of processes: calls whose effect is the kernel's.
- The evidence collected when a group is observed (rust/containment/src/contain.rs:300-530): it reports and decides nothing
  here.
- Configuration, updates, paths, build scripts, logging and error texts.
