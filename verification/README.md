# Composer sessions, replayed

A composer turn emits numbered events. Each is folded into a rolling snapshot, pushed on a ring of the last 1000, queued
for a durable per-thread log, and forwarded to the one consumer connected. A client may drop, refresh, or outlive the
process; `attach` then stitches durable rows, ring and live channel into one stream, told apart only by sequence number,
and a session can be rebuilt from its thread alone. This project models that protocol and proves that the copies agree
and that the stitching neither loses nor repeats, or says exactly when it does.

The project has three layers, each tied to the others:

- **State in place.** `EventChannel`, `ThreadStore`, `ComposerSession`, `PendingAnswers`, `RollingSnapshot`,
  `SessionStore` and the tool session are classes whose methods are verified against specification functions
  (`EventChannels`, `Threads`, `LiveSession`, `PendingQuestions`, `LiveSnapshot`, `SessionStores`, `FixBound`). The
  loops that print, parse, replay and resolve are methods with loops (`SseCodec`, `AttachReplay`, `DropdownValues`).
- **What those functions mean.** The fold is characterised by queries on the log (`SnapshotFold`), a session's history by
  the log it wrote or was rebuilt from (`Sessions`), a turn by the events any script makes it emit (`Turns`,
  `TurnWords`).
- **Whole runs.** `ReplayModel` is a step system: one step is the code between two suspension points. Emits, writes that
  land or fail, streams and attaches at every `await` and `yield`, clients leaving, the orphan timer, the end of a turn
  and crashes interleave freely, with any number of consumers. `ReplayInvariant` is what every step keeps
  (`ReplayConsumers`, `ReplaySteps`), and `ReplayTheorems`, `ReplayRuns`, `ReplayLosses`, `ReplayWatch` and
  `ReplayProgress` say what follows for every run. `ReplayStarts` says where a consumer starts, `ReplayLives` follows a
  returning client through any number of lives of the process, and `WireReplay` does so on the wire, through the codec.
  `AskUser` is the same for questions and their handlers.

Beside the session and the store the step system keeps the full log, every event of the session's history, so that "no
hole" is a statement about what was emitted and not about what some copy remembers. `Logs.Seg(log, a, b)` is the stretch
of a log numbered after `a` up to `b`; `base` is a consumer's cursor when it started, `delivered` where it has come to.

## Where the code keeps less than its comments say

The model follows the code, and these are theorems about it:

- A failed write is logged and the chain moves on, so the stored log can have a hole. An attach does not fill it from the
  ring: `ReplayRuns.OneFailureLeavesAHole` is such a run, and `ReplayTheorems.HoleExactlyWhen` says when it happens.
- The ring may have rolled past the durable read by the time it is copied; the same theorem counts it as the only other
  way to miss an event, and `ReplayLosses.ARingRolls` is a run.
- The test for a gap-free tail goes by numbers, so a hole in the numbers can hide a tail the ring still has, and the client
  gets a snapshot (`ReplayTheorems.TailTestIsExact`, and the session `AHoleHidesATail`).
- An attach that finds no turn running at its check ends with what the ring's copy held, whatever its channel holds by
  then (`ReplayTheorems.StopsAtTheCopy`, and the run `ReplayLosses.ATurnEndsEarly`).
- A tool that outlives its turn still emits, into the log and to nobody (`ReplayLosses.AToolOutlivesItsTurn`).
- A crash loses the writes still queued, and the next life reuses their numbers, so a client that had seen them skips the
  new events under those numbers. `ReplayTheorems.CrashKeepsExactlyTheStored` says exactly which events survive and when
  a number comes again; `ReplayLosses.ACrashReusesNumbers` is a run. So what a client that drops and returns holds is the
  log exactly when the process never died over an event it held that was queued or lost (`ReplayLives.ReconnectChain`).
- A running turn without a reader need not have its orphan timer armed. `ReplayWatch.UnheardExactlyWhen` says for every
  run when that is so: a reader whose client left before it subscribed found it out, or a channel overflowed, and nothing
  took over since. `ReplayWatch.AnUnwatchedTurn`, `AnUnheardStream` and `AnOverflownReader` are runs.
- A rebuilt session is the one that lived except for a standing offer, which a turn's start clears outside the log, and
  the draft, which a message's canvas replaces outside the log. `Sessions.RehydrationEqualsLiving` says exactly when both
  agree; `Sessions.AnOfferOutlivesItsTurn` and `Sessions.ACanvasIsNotLogged` are histories in which they do not.
- A step may be charged three failures although the bound is two (`FixBound.PastTheBoundExactlyWhen`).

## Model

| member | source | states |
|---|---|---|
| ReplaySteps.StepKeeps | apps/agent/src/composer/composer.service.ts:104-502 | Every step of the protocol keeps the invariant: the ring is the log's suffix, the chain its unsettled tail, every row or loss accounted for, every consumer's output explained by the log, one open channel, one turn. |
| ReplaySteps.EveryRunKeepsInv | apps/agent/src/composer/composer.service.ts:104-502 | So does every interleaving of steps. |
| ReplaySteps.WriteKeeps | apps/agent/src/composer/thread-store.ts:109-137 | A queued write that lands or fails keeps it: the row is there or its number is lost, and the chain is the rest. |
| ReplaySteps.HandleKeeps | apps/agent/src/composer/composer.service.ts:260-270 | So does a live consumer that breaks, skips or yields. |
| ReplaySteps.ReplayNextKeeps | apps/agent/src/composer/composer.service.ts:222-236 | So does every iteration of the replay loops, with the ring copied between them. |
| ReplaySteps.ChooseKeeps | apps/agent/src/composer/composer.service.ts:237-250 | So does the choice between tail and snapshot. |
| ReplaySteps.ClientGoneKeeps | apps/agent/src/composer/composer.service.ts:377-390 | So does a client vanishing at any point. |
| ReplaySteps.CrashKeeps | apps/agent/src/composer/composer.service.ts:309-321 | So does a crash with the rebuilding after it. |
| ReplayTheorems.ExactlyOnce | apps/agent/src/composer/composer.service.ts:209-270 | At every moment of every run a consumer has been sent log entries past its cursor, strictly increasing; unless it jumped a lost row or a rolled ring, exactly the log's stretch from its cursor to its last number. |
| ReplayTheorems.DeliveredNumbers | apps/agent/src/composer/composer.service.ts:209-270 | In a log without holes those are the numbers cursor+1, cursor+2, and so on, one by one. |
| ReplayStarts.AttachStartsWhereAsked | apps/agent/src/composer/composer.service.ts:209-219 | A client that attaches with a number is, in every later state of that life and unless it was sent a snapshot, served from that number: everything sent to it is numbered past it. |
| ReplayStarts.SenderStartsAtItsMessage | apps/agent/src/composer/composer.service.ts:150-165 | A client that sends a message is served, in every later state of that life, from that message on, which is numbered next in the log it joins. |
| ReplayStarts.TheGoneAreSentNothing | apps/agent/src/composer/composer.service.ts:222-268 | A client that is gone is sent nothing more in that life, wherever it left off and whatever happens. |
| ReplayTheorems.HoleExactlyWhen | apps/agent/src/composer/composer.service.ts:219-236 | Once its replay is through, an undropped consumer has a hole if and only if a failed write lay below the last row it read or the ring, when copied, had rolled past events it was still to be sent; whatever holes the log itself has. |
| ReplayTheorems.RingIsLogsEnd | apps/agent/src/composer/sessions.ts:168-222 | In every reachable state the ring is the last 1000 entries, or all, of what the session's log gained since it began, and the counter the log's last number; without holes in the log they are numbered consecutively up to it. |
| ReplayTheorems.TurnIsDelivered | apps/agent/src/composer/composer.service.ts:260-270 | A consumer that read its channel to an end that the turn's end put there was sent every event after its cursor up to the turn's last. |
| ReplayTheorems.StopsAtTheCopy | apps/agent/src/composer/composer.service.ts:254-259 | An undropped attach that finds no turn running was sent exactly what the log held when the ring was copied. |
| ReplayLives.ReconnectChain | apps/agent/src/composer/composer.service.ts:196-321 | A client drops anywhere and returns, opening each visit with its last number or with a message, over any number of visits and lives of the process: what it holds, its own messages among them, is at every moment the log from its first cursor on, no hole and no duplicate, exactly when the process never died while an event it held was queued or lost. |
| ReplayLives.ReconnectAcrossLives | apps/agent/src/composer/composer.service.ts:196-321 | Whatever crashes, such a client is sent no number twice and passes none of the log's by, and what it holds is the log's stretch exactly when each event it holds is still in the log. |
| ReplayLives.ReconnectWithinALife | apps/agent/src/composer/composer.service.ts:196-271 | Within one life of the process what it holds is always the log's stretch. |
| ReplayTheorems.SnapshotAndTail | apps/agent/src/composer/composer.service.ts:237-250 | Folding the later events onto the one snapshot sent gives, at every moment, the session's snapshot as of the last event sent. |
| ReplayTheorems.TailTestIsExact | apps/agent/src/composer/composer.service.ts:238-239 | The gap-free test lets a tail be sent only when the ring still holds every event after the client's cursor, which is exactly when no event lies between the cursor and the ring's oldest; so it misses a tail exactly when numbers without events lie between, and never on a log without holes. |
| ReplayTheorems.AHoleHidesATail | apps/agent/src/composer/composer.service.ts:238-239 | A session rebuilt from a thread that lost its first two writes, whose ring holds all a client at 1 lacks while the test says no. |
| ReplayTheorems.SessionLife | apps/agent/src/composer/composer.service.ts:120-177 | In every reachable state the only open channel is the subscriber's, a subscriber and an armed timer exclude each other, a session is busy exactly while one stream is under way, and never two; no turn runs where one may start. |
| ReplayTheorems.TurnEndLeavesNothing | apps/agent/src/composer/composer.service.ts:487-501 | A turn's end closes every channel, keeps what is in them, tells a waiting reader the end, where the log ends, and leaves no subscriber, no armed timer and no abort behind. |
| ReplayTheorems.OrphanAbortsUnread | apps/agent/src/composer/composer.service.ts:382-388 | The timer aborts only a running turn whose every channel is closed. |
| ReplayTheorems.StoredIsPrefix | apps/agent/src/composer/thread-store.ts:109-137 | With no failed write the stored log is the emitted log without its queued tail. |
| ReplayTheorems.NextIsBeyondStored | apps/agent/src/composer/composer.service.ts:335-345 | No stored number exceeds the thread's last, and that never exceeds the session's: new events never take a stored number. |
| ReplayTheorems.StoredStays | apps/agent/src/composer/thread-store.ts:109-137 | A stored row stays, unchanged, through every run, crashes included, and the thread's last number never falls. |
| ReplayTheorems.CrashKeepsExactlyTheStored | apps/agent/src/composer/composer.service.ts:309-321 | After a crash the log is exactly the events whose write had landed, neither queued nor lost; the next number is one a client has already seen exactly when nothing from its last event on was stored. |
| ReplayTheorems.TheNextLife | apps/agent/src/composer/composer.service.ts:309-321 | After a crash nobody is connected and nothing armed or queued; the log is the thread's rows, the ring their last 1000, the snapshot their fold, the draft the last applied document; without a durable log nothing is remembered. |
| ReplayRuns.NoFailureNoHole | apps/agent/src/composer/thread-store.ts:109-137 | Unless a write fails, no run, crashes included, leaves a hole in the numbers or hides a row from a read. |
| ReplayRuns.ExactlyOnceUnlessAWriteFails | apps/agent/src/composer/composer.service.ts:209-270 | Where no write failed and the ring had not rolled, a consumer has at every moment been sent exactly the events cursor+1, cursor+2, and so on. |
| ReplayRuns.OneFailureLeavesAHole | apps/agent/src/composer/thread-store.ts:128-132 | A run in which the write of a turn's opening message fails, and a client that attaches during that turn is sent the next event and never the message, although the ring holds it. |
| ReplayLosses.ATurnEndsEarly | apps/agent/src/composer/composer.service.ts:254-259 | A run in which the turn ends between the ring's copy and the busy check, and the attach ends with an event left in its channel. |
| ReplayLosses.AToolOutlivesItsTurn | apps/agent/src/composer/composer.service.ts:487-501 | A run in which a tool emits after its turn's clean-up: the event joins the log and the ring, and the sender, still there, has been told the end and is not sent it. |
| ReplayLosses.ACrashReusesNumbers | apps/agent/src/composer/composer.service.ts:309-345 | A run in which a client is sent a queued event, the process dies, and the message that opens the next life's first turn, numbered below that client's cursor, is never sent to it. |
| ReplayLosses.ARingRolls | apps/agent/src/composer/composer.service.ts:230-235 | A run in which a turn emits 1000 events between an attach's durable read and its copy of the ring, and the opening message reaches the client from neither. |
| ReplayWatch.UnheardByStep | apps/agent/src/composer/composer.service.ts:209-270 | From any reachable state, exactly which step leaves a running turn with no open channel, no armed timer and no abort requested, and exactly which leaves it without a subscriber too. |
| ReplayWatch.UnheardExactlyWhen | apps/agent/src/composer/composer.service.ts:377-390 | Over every run, a turn stands so if and only if its reader lapsed at some step (its client gone before it subscribed, or its channel overflown) and no new reader, turn's end, crash or departing client came since. |
| ReplayWatch.DroppedTurnIsTimed | apps/agent/src/composer/composer.service.ts:377-390 | A running turn whose reader's client leaves has no open channel and its timer armed. |
| ReplayWatch.LeavingExactly | apps/agent/src/composer/composer.service.ts:377-390 | Any client's leaving at any point: only the subscriber's frees its place and closes its channel, and arms the timer exactly while the session is busy. |
| ReplayWatch.AnUnwatchedTurn | apps/agent/src/composer/composer.service.ts:209-217 | A run in which an attach, its client gone before it subscribed, leaves a running turn with neither subscriber nor armed timer. |
| ReplayWatch.AnUnheardStream | apps/agent/src/composer/composer.service.ts:150-171 | A run in which the sender's client left before its turn began: the turn runs on with no open channel and no armed timer. |
| ReplayWatch.AnOverflownReader | apps/agent/src/composer/event-channel.ts:26-31 | A run in which an attach, its client present, overflows its channel while its durable read is pending, to the same effect. |
| ReplayProgress.AttachDeliversEverything | apps/agent/src/composer/composer.service.ts:209-270 | From any reachable state, an attach left alone is sent everything after its cursor if and only if no write was lost between that and the thread's last and no event lies between the rows and the ring's oldest; it then joins the live turn exactly when there is one. |
| ReplayProgress.AttachIsServed | apps/agent/src/composer/composer.service.ts:209-259 | From any reachable state, an attach that asks with a number and is left alone from its opening on: with a durable log it is sent exactly everything past that number, under the same exact condition; without one, the tail past it or one snapshot; and it joins the live turn exactly when there is one. |
| ReplayProgress.MemoryAttachDeliversEverything | apps/agent/src/composer/composer.service.ts:237-259 | Without a durable log, an attach left alone is sent everything after its cursor when the ring reaches back to it, else one snapshot of the present, and joins the live turn exactly when there is one. |
| ReplayProgress.AFailedReadFallsBack | apps/agent/src/composer/composer.service.ts:362-370 | An attach whose durable read fails is served as one without a durable log. |
| ReplayProgress.LiveReaderCatchesUp | apps/agent/src/composer/composer.service.ts:260-270 | From any reachable state, a live consumer with an open channel that reads on is sent everything up to the log's end. |
| ReplayProgress.ClosedReaderFinishes | apps/agent/src/composer/composer.service.ts:260-270 | From any reachable state, a live consumer whose channel has closed and that reads on comes to its end, sent everything up to where the channel closed: the turn's end, when that closed it. |
| ReplayProgress.SilenceAborts | apps/agent/src/composer/composer.service.ts:377-390 | From then on, whatever happens but a new consumer or the turn's end, the timer stays armed, and firing requests the abort. |
| ReplayProgress.AnEventIsForwarded | apps/agent/src/composer/sessions.ts:174-184 | An emitted event joins the log under the next number, the queue of writes if there is a thread, and the subscriber's open channel alone, which hands it to a waiting reader, buffers it, or, full, closes without it. |
| ReplayProgress.MessageIsNotEchoed | apps/agent/src/composer/composer.service.ts:152-165 | A turn's opening message joins the log and no channel: its sender starts past it, every other reader is told the end, the timer is disarmed. |
| AttachReplay.ReplayList | apps/agent/src/composer/composer.service.ts:222-227 | One replay loop yields what a client shown the list in order did not know, up to where it is found gone. |
| AttachReplay.Attach | apps/agent/src/composer/composer.service.ts:219-250 | Over ascending rows and ring, with the client leaving at any iteration or none: the rows, then the ring past the last of them, as far as they were shown; without rows, a tail of the ring only when the ring has every event past the cursor, on a log without holes exactly then and for a cursor past 0, else one snapshot. |
| WireReplay.WireReconnectChain | apps/client/src/api/agent.ts:209-278 | A client that drops at any character of any connection and resumes from the number of its last history frame, or with a message, over any number of connections and lives of the process, holds no number twice and passes none of the log's by; the frames it holds are the log's from its first cursor on exactly when each is still a logged event's, and always when the process never died while one of its events was queued or lost. |
| WireReplay.WireWithinALife | apps/client/src/api/agent.ts:209-278 | Within one life of the process they are always the log's frames: no hole, no duplicate. |
| WireReplay.NamesTell | apps/agent/src/composer/protocol.ts:38-103 | Names tell the kinds of events apart, and none is that of a frame without history. |
| WireReplay.ConnectionIsHistory | apps/agent/src/composer/composer.service.ts:207-268 | The history of a connection, its session frame and its marker set aside, is exactly what was replayed and then forwarded. |
| AttachReplay.UnseenIsTail | apps/agent/src/composer/composer.service.ts:222-236 | Skipping by number yields exactly the tail past the cursor of an ascending list. |
| AttachReplay.StepsAreTheLoop | apps/agent/src/composer/composer.service.ts:222-236 | The step system's replay of an undropped consumer is that loop, one iteration a step. |
| AttachReplay.ChoosingIsAttach | apps/agent/src/composer/composer.service.ts:237-250 | The step system's choice and the replay steps after it give what that method gives without rows. |
| AttachReplay.ReadingIsAttach | apps/agent/src/composer/composer.service.ts:219-236 | And its read, replay and copy of the ring what the method gives with them. |
| SnapshotFold.FoldRefinesQueries | apps/agent/src/composer/sessions.ts:111-137 | The fold of any log answers the log's queries: brief and results are the last, a question is answered exactly when a later resolution names it, a need stands exactly when nothing later settles it, assumptions are the distinct pairs by first occurrence, and every map stands in the order its entries arose. |
| SnapshotFold.OneEventFolded | apps/agent/src/composer/sessions.ts:111-137 | What one event does to each entry of a snapshot, and that it leaves every other as it was. |
| SnapshotFold.LiveIsFoldButOffer | apps/agent/src/composer/sessions.ts:191-206 | Living through a log and folding it differ in the standing offer alone, and a live offer is a folded one. |
| SnapshotFold.LiveOfferIsSinceLastMessage | apps/agent/src/composer/composer.service.ts:401-403 | An offer stands live exactly when one was made after the last user message. |
| SnapshotFold.OffersAgreeExactlyWhen | apps/agent/src/composer/composer.service.ts:401-403 | Living through a log and folding it give the same snapshot exactly when no message came after the last offer, or none came, or nothing was ever offered. |
| SnapshotFold.FoldAllConcat | apps/agent/src/composer/sessions.ts:111-137 | Folding or living a log in two parts is doing so in one. |
| Sessions.RehydrationEqualsLiving | apps/agent/src/composer/sessions.ts:208-222 | Rebuilding from the log a session wrote gives the same counter, ring, canvas branch and steps, and the same snapshot and draft but for the offer and a canvas; it gives the session that lived exactly when the log keeps the offer and no standing canvas differs from the document last applied. |
| Sessions.AnOfferOutlivesItsTurn | apps/agent/src/composer/composer.service.ts:401-403 | A history whose offer a message withdrew live and not in the rebuilt session. |
| Sessions.ACanvasIsNotLogged | apps/agent/src/composer/composer.service.ts:145 | A history whose canvas is the living session's draft and unknown to the rebuilt one. |
| Sessions.RebuiltFromLog | apps/agent/src/composer/sessions.ts:215-222 | A rebuilt session's ring is the last 1000 of the log, its snapshot the log's fold, its draft the last applied document. |
| Sessions.LivedByLog | apps/agent/src/composer/sessions.ts:174-206 | A living session's counter, ring and snapshot are what the log it wrote says: the ring is its last 1000 entries, numbered up to the counter. |
| Sessions.LivedCanvas | apps/agent/src/composer/sessions.ts:157-165 | Over any log a living session wrote, its known steps are those of the document last applied or of the message that came later, its branch the last message's. |
| Sessions.RebuiltCanvas | apps/agent/src/composer/sessions.ts:157-165 | The same of a session rebuilt from any log. |
| Sessions.WhatIsLogged | apps/agent/src/composer/sessions.ts:174-206 | What enters the log, numbered on: an event as emitted, a batch with the document it left, a message with its text, its branch and the steps of the canvas it brought, if any. |
| Protocol.StepsAreIdentified | apps/agent/src/composer/sessions.ts:139-149 | A document's steps are its nodes with an id, in order, each under its id and its name, or its id again where it has none. |
| Sessions.FloorIsReached | apps/agent/src/composer/composer.service.ts:335-345 | Adopting the thread's number before replaying its log changes nothing: the log counts up to it. |
| Sessions.StoredAppends | apps/agent/src/composer/thread-store.ts:195-209 | Storing the next event appends it to what loads. |
| LiveSession.ComposerSession.EmitToSession | apps/agent/src/composer/sessions.ts:174-184 | Emitting numbers, folds, tracks and buffers the event as the history function says, queues it for the thread and pushes it to the live channel. |
| LiveSession.ComposerSession.RecordUserMessage | apps/agent/src/composer/sessions.ts:191-206 | The message is numbered, tracked, buffered and queued, neither folded nor pushed. |
| LiveSession.ComposerSession.RehydrateIntoSession | apps/agent/src/composer/sessions.ts:215-222 | One stored event joins the history, with nothing queued or pushed. |
| LiveSession.ComposerSession.Rehydrate | apps/agent/src/composer/composer.service.ts:309-321 | The loop over a thread's events leaves the session with exactly the history rebuilt from that thread. |
| LiveSession.ComposerSession.AdoptThread | apps/agent/src/composer/composer.service.ts:335-345 | The session becomes the user's, writes through to the thread, counts on from the larger number, and resumes the thread's agent session if it has none and the transcript survives. |
| LiveSession.ComposerSession.BindThread | apps/agent/src/composer/composer.service.ts:323-332 | A resolved thread is bound exactly when none is bound yet and there is a caller, and its agent session resumed as adopting it does. |
| LiveSession.ComposerSession.Subscribe | apps/agent/src/composer/composer.service.ts:209-215 | The old consumer's channel is closed, a new open one takes its place, the timer is disarmed. |
| LiveSession.ComposerSession.DropSubscriber | apps/agent/src/composer/composer.service.ts:377-390 | Only the current consumer can drop; its channel closes, and the timer is armed exactly when the session is busy. |
| LiveSession.ComposerSession.OrphanFires | apps/agent/src/composer/composer.service.ts:382-388 | The timer disarms itself and aborts only a busy session without a consumer. |
| LiveSession.ComposerSession.Stream | apps/agent/src/composer/composer.service.ts:123-178 | A busy session refuses a message and is unchanged; else the thread is bound if none is, and the message opens a turn that resumes its agent session and whose events, whatever it meets, extend the lived history, and the agent session its stream names is left with the thread if that update lands; at the end the session is not busy, has no subscriber, timer, abort controller or waiting question. |
| LiveSession.ComposerSession.RunTurn | apps/agent/src/composer/composer.service.ts:397-502 | The turn counts its fixes from nothing, emits exactly what the script makes a turn emit, keeps the agent session the stream names and leaves it with the thread if that update lands, no other thread touched; its clean-up leaves no consumer, timer, abort controller or waiting question. |
| LiveSession.RememberingIs | apps/agent/src/composer/thread-store.ts:139-150 | Only the turn's own thread is told the agent session, if it is there and one was named; every other thread stays. |
| LiveSession.ComposerSession.CleanUp | apps/agent/src/composer/composer.service.ts:487-501 | Every way out cancels the session's questions, closes the live channel, leaves no subscriber, timer or abort controller, and the history untouched. |
| LiveSession.HandledMessageRehydrates | apps/agent/src/composer/composer.service.ts:301-321 | A session rebuilt from a thread handles a message through any turn and its writes land: rebuilding again gives the session that lived exactly when the turn made an offer or none was ever made, and the turn applied a batch or the message brought no canvas but the draft there was; all but the offer and the draft agree in any case. |
| Turns.EveryTurnCloses | apps/agent/src/composer/composer.service.ts:397-502 | For any script the turn emits one done per result that arrives before the stream first throws, ends or is cut by an abort, or one if none does; an error precedes each done whose result did not succeed, and nothing but its done follows an error; without a result it closes with the words for how it ended, interrupted exactly when an abort stopped it. |
| Turns.OneEndExactlyWhen | apps/agent/src/composer/composer.service.ts:447-474 | A turn ends once if and only if its script lets at most one result arrive before the stream first throws, ends or is cut by an abort. |
| TurnWords.TurnSays | apps/agent/src/composer/composer.service.ts:433-474 | For any script: a turn's ends are those of the results it takes, each with the session's name and its turns and, unless it succeeded, its subtype or the provider's refusal in an error before it, or one closing error and end without a result; the tools' events are all there in order; where tools say no text, the texts are the deltas taken, in order, with a break before each later block; the agent session kept is the one last named. |
| TurnWords.CutExactlyWhen | apps/agent/src/composer/composer.service.ts:382-406 | A turn is aborted exactly when its own timeout came, or the orphan timer fired while nobody had come back since a client left. |
| EventChannels.FaithfulFifo | apps/agent/src/composer/event-channel.ts:18-61 | Over any run the accepted values are the delivered ones then the buffered ones, in order; a reader waits only on an empty open channel. |
| EventChannels.EndMeansDrained | apps/agent/src/composer/event-channel.ts:46-60 | A reader is told the end only when everything accepted was delivered. |
| EventChannels.AcceptedIsDelivered | apps/agent/src/composer/event-channel.ts:26-31 | However the channel closed, overflow included, reading on delivers every accepted value. |
| EventChannels.EventChannel.Push | apps/agent/src/composer/event-channel.ts:18-32 | A push settles the waiting read or joins the buffer, and is refused exactly when the channel is closed or full, which closes it. |
| EventChannels.EventChannel.Close | apps/agent/src/composer/event-channel.ts:34-42 | Closing tells a waiting reader the end and keeps the buffer. |
| EventChannels.EventChannel.Next | apps/agent/src/composer/event-channel.ts:46-55 | A read takes the head, is told the end, waits, or is rejected as the second reader. |
| EventChannels.EventChannel.Return | apps/agent/src/composer/event-channel.ts:56-59 | A reader that stops closes the channel. |
| Threads.LoadIsSortedRows | apps/agent/src/composer/thread-store.ts:195-209 | Loading after a number gives exactly the rows past it, strictly ascending. |
| Threads.HistoryIsNeverOverwritten | apps/agent/src/composer/thread-store.ts:109-137 | No sequence of appends changes or removes a row, each numbered event is present after it, and the last number bounds them all. |
| Threads.AppendIsIdempotent | apps/agent/src/composer/thread-store.ts:104-137 | Appending an event again, at any later time, changes nothing. |
| Threads.ThreadStore.Resolve | apps/agent/src/composer/thread-store.ts:73-88 | Find-or-create: the key's one thread as it stands; else a new one, or the row a rival put there first with whatever events it holds; an error when that row vanished again or the workflow does not exist. |
| Threads.ThreadStore.DeleteThread | apps/agent/src/composer/thread-store.ts:95-102 | Exactly the thread of the key goes, and none of that key is left. |
| Threads.ThreadStore.Rekey | apps/agent/src/composer/thread-store.ts:160-192 | A rekeyed thread keeps its events; only the thread displaced from the key, or the scratch thread of a vanished workflow, disappears, and keys stay unique. |
| Threads.ThreadStore.RecordSdkSession | apps/agent/src/composer/thread-store.ts:139-150 | The thread, if it is there, has this agent session to resume; nothing else changes. |
| Threads.ThreadStore.Append | apps/agent/src/composer/thread-store.ts:109-137 | An event queues behind its thread's earlier writes. |
| Threads.ThreadStore.Settle | apps/agent/src/composer/thread-store.ts:112-135 | The oldest write settles: stored, or lost with the chain moving on. |
| SessionStores.SessionStore.EvictOldestIdle | apps/agent/src/composer/sessions.ts:315-324 | The evicted session is the one idle the longest, first created among equals; none goes when all are busy. |
| SessionStores.SessionStore.Create | apps/agent/src/composer/sessions.ts:239-276 | No busy session is lost to a new one; at the cap exactly the one idle the longest goes, and below it, or when all are busy, none. |
| SessionStores.SessionStore.FindByThread | apps/agent/src/composer/sessions.ts:294-302 | The first session bound to the thread is found whenever there is one, and counts as used. |
| LiveSnapshot.RollingSnapshot.FoldInto | apps/agent/src/composer/sessions.ts:111-137 | Folding in place is the fold on values, and touches no payload taken in and no snapshot handed out before. |
| LiveSnapshot.RollingSnapshot.SnapshotOf | apps/agent/src/composer/sessions.ts:96-108 | The snapshot handed out has the present contents in map order, its question entries copies of their own. |
| LiveSnapshot.RollingSnapshot.FoldThrough | apps/agent/src/composer/sessions.ts:96-121 | Over any run of later events everything handed out before stays as it was. |
| SseCodec.Pipe | apps/agent/src/composer/composer.controller.ts:194-197 | The printer writes the frames of the events it is given, until the response is over. |
| SseCodec.ParseSseMessage | apps/client/src/api/agent.ts:262-278 | The line loop finds the last event name and number and the joined data, or nothing without data or with data that is no JSON. |
| SseCodec.MessageSays | apps/client/src/api/agent.ts:262-278 | A message is nothing without a data line or where its data is no JSON; its name is its last event line's or `message`, its number its last id line's or 0. |
| SseCodec.ValuesInOrder | apps/client/src/api/agent.ts:266-271 | A field's values are the rests of the lines that carry it, in order. |
| SseCodec.JoinSplits | apps/client/src/api/agent.ts:266-275 | Joining data lines and splitting a text into lines undo each other. |
| Texts.TrimIs | apps/client/src/api/agent.ts:267-269 | Trimming takes the blanks off both ends of a text and nothing else. |
| Texts.Trimmed | apps/client/src/api/agent.ts:267-269 | Every text is blanks around what trimming leaves, which neither begins nor ends blank. |
| SseCodec.Sse | apps/client/src/api/agent.ts:209-224 | Fed any chunks, the client yields what the whole text says and holds back no complete frame. |
| SseCodec.ReadOn | apps/client/src/api/agent.ts:213-223 | Reading a text in two pieces, cut anywhere, is reading it in one. |
| SseCodec.ReadGoesOn | apps/client/src/api/agent.ts:209-224 | Reading goes on behind every message, whether it says something or nothing. |
| SseCodec.MessageOfFrame | apps/client/src/api/agent.ts:262-278 | One printed frame parses back to its event, number included. |
| SseCodec.StreamReadsBack | apps/agent/src/composer/composer.controller.ts:194-197 | A whole printed stream reads back as the events printed, nothing held back. |
| SseCodec.CutStreamReadsBack | apps/client/src/api/agent.ts:209-224 | Broken off anywhere, the stream yields exactly the frames it completed and holds back exactly the characters after them. |
| SseCodec.AnyChunking | apps/client/src/api/agent.ts:209-278 | So it does however it is cut into chunks. |
| SseCodec.StandardReadsFrames | apps/agent/src/composer/composer.controller.ts:196 | A parser of section 9.2.6 of the WHATWG HTML Living Standard dispatches from a printed frame the same type, data and number. |
| FixBound.ToolSession.RunTestStep | apps/agent/src/composer/agent-tools.ts:622-683 | A test is refused for an unknown step or one at the bound; a failure is charged to its step, and the result is emitted. |
| FixBound.ToolSession.RunRunDraft | apps/agent/src/composer/agent-tools.ts:690-776 | A run is refused on an empty draft or while the last failed step is at the bound; its record is emitted step by step and its first failed step charged. |
| FixBound.FirstFailedIsFirst | apps/agent/src/composer/agent-tools.ts:736-749 | The step charged is the first failed one of the record, and none exactly when none failed. |
| FixBound.RecordIsReported | apps/agent/src/composer/agent-tools.ts:737-749 | One result for each step of a record that has an id, in record order, failed exactly when that step failed, with a summary exactly when it failed with an error text, that text cut at 200. |
| FixBound.OutputsAreReported | apps/agent/src/composer/agent-tools.ts:719-723 | One passed result for each output of a passed run but the trigger's, in order. |
| FixBound.NoStepFailsFourTimes | apps/agent/src/composer/agent-tools.ts:636-674 | Over any calls in a turn no step is charged more than three failures, only the last failed one three, and the counts add up to the failures charged. |
| FixBound.ThirdFailureEndsRuns | apps/agent/src/composer/agent-tools.ts:701-712 | A third failure is for good: the step stays the last failed one, every later run and every test of it is refused, and no other step reaches three. |
| FixBound.PastTheBoundExactlyWhen | apps/agent/src/composer/agent-tools.ts:701-760 | Exactly when a call takes a step past the bound of two. |
| FixBound.FailuresPerTurn | apps/agent/src/composer/agent-tools.ts:636-760 | Failures charged to N steps total at most 2N+1. |
| FixBound.ThreeFailuresHappen | apps/agent/src/composer/agent-tools.ts:701-760 | Two failed tests and a run that stops at the step: three failures, and 2N+1 is met. |
| PendingQuestions.PendingAnswers.HasPending | apps/agent/src/composer/pending-answers.ts:29-34 | The scan finds a waiting question of the session exactly when there is one. |
| PendingQuestions.PendingAnswers.Create | apps/agent/src/composer/pending-answers.ts:42-59 | A question is registered, its timer armed, exactly when the session has none waiting. |
| PendingQuestions.PendingAnswers.Answer | apps/agent/src/composer/pending-answers.ts:62-66 | An answer is accepted exactly when its question waits and is the session's own; else nothing changes. |
| PendingQuestions.PendingAnswers.TimerFires | apps/agent/src/composer/pending-answers.ts:48-49 | An armed timer's question is waiting, and times out. |
| PendingQuestions.PendingAnswers.CancelForSession | apps/agent/src/composer/pending-answers.ts:69-73 | Exactly the session's waiting questions are cancelled, and none is left. |
| PendingQuestions.PendingAnswers.Settle | apps/agent/src/composer/pending-answers.ts:75-81 | A waiting question settles once, its timer disarmed; a settled one keeps its outcome. |
| AskUser.OneQuestionAtATime | apps/agent/src/composer/pending-answers.ts:42-45 | In every run a session has at most one waiting question. |
| AskUser.FirstSettlementWins | apps/agent/src/composer/pending-answers.ts:75-81 | A settled question keeps its first outcome whatever follows. |
| AskUser.SettledExactlyBy | apps/agent/src/composer/pending-answers.ts:62-81 | Over every run a question has an outcome exactly when, while it waited, its own session's answer, its timeout or its session's turn ending gave it that one; so foreign, unknown and late answers change nothing. |
| AskUser.AskedExactlyBy | apps/agent/src/composer/agent-tools.ts:505-530 | Over every run a question is known in its session, with what was given with it, exactly when some step asked it there while no other waited. |
| AskUser.ResolvedAtMostOnce | apps/agent/src/composer/agent-tools.ts:505-561 | In every run a question is asked once and resolved at most once in its session's log, exactly when its handler resumed on an outcome that was no cancellation, and the folded snapshot shows it answered exactly then: with that answer, or after a timeout, flagged, with the stated fallback, else the first option, else nothing. |
| DropdownValues.ResolveDropdownParams | apps/agent/src/composer/dropdown-values.ts:58-89 | The loop resolves every parameter on its own and notes what it rewrote or could not match, in order. |
| DropdownValues.RewrittenExactlyWhen | apps/agent/src/composer/dropdown-values.ts:66-84 | Exactly when a parameter is rewritten or reported, to what, and what is said: the value of the first option with just that label, else of the first alike, or the labels of the first eight. |
| DropdownValues.NormalizedIs | apps/agent/src/composer/dropdown-values.ts:28-31 | Labels are alike whatever blanks stand around them, whatever one mark begins them, and in whatever case. |
| DropdownValues.ReferenceIs | apps/agent/src/composer/dropdown-values.ts:70-72 | A reference is any text with an opening pair of braces. |
| DropdownValues.OptionsFrom | apps/agent/src/composer/dropdown-values.ts:66-76 | Only option parameters have options: a static one its schema's, a live one what loads. |
| DropdownValues.OptionsAreEntries | apps/agent/src/composer/dropdown-values.ts:33-38 | A schema's options are its entries that are objects, in order, each under its label or its printed value. |
| DropdownValues.NotesFollowParameters | apps/agent/src/composer/dropdown-values.ts:64-86 | At most one thing is said of each parameter, in their order. |
| DropdownValues.ResolvedStays | apps/agent/src/composer/dropdown-values.ts:66-84 | A resolved value resolves to itself and is not reported. |
| DropdownValues.ResolvingTwiceIsOnce | apps/agent/src/composer/dropdown-values.ts:58-89 | With the same options, resolving twice is resolving once. |
| DropdownValues.OnlyUnmatchedAgain | apps/agent/src/composer/dropdown-values.ts:58-89 | A second pass reports exactly the unmatched of the first. |

## Left out

- Mid-session binding: the step system binds a session to its thread before its first event. Adopting a thread later can make the counter jump; `AdoptThread` shows the jump, and the runs leave it out, as they do a rekey that unbinds a session.
- Rehydration is one step; that another call may find the session while its events still load is not in the runs.
- A write that is in flight when the process dies counts as landed or as lost before the crash.
- The shipped client attaches from number 0 and takes the whole thread again; a client that returns with its last number is one the agent's interface allows.
- ReplayTheorems.TurnIsDelivered: speaks of consumers whose channel the turn's end closed; one closed by an overflow or a newer consumer was sent what `ExactlyOnce` says and no more.
- FixBound.NoStepFailsFourTimes: calls do not overlap; two calls of one turn under way at once both pass the check before either is charged.
- LiveSession.ComposerSession.Stream: the events yielded to its client while the turn runs are the step system's matter, and here clients only drop and return; the rekey before the thread is bound is `Threads.ThreadStore.Rekey` alone.
- ReplayTheorems.SessionLife: a response that is over before its events are would free the session while the turn still runs, as the printing loop's break skips the wait for the turn. Nothing in the agent ends a response before that loop does, and the step system has no such step.
- The update that leaves an agent session with its thread lands at once or not at all; the turn's tools are the script's, and what their bounds count is `FixBound`.
- Turns.EveryTurnCloses: tools emit neither `done`, `error` nor `user_message`, as none in the source does.
- SseCodec.StreamReadsBack: JSON is the host's: its printer gives one line without a leading blank and its parser undoes it. Numbers are unbounded integers, where JavaScript's are exact up to 2^53.
- SseCodec.StandardReadsFrames: lines end at newlines; a printed frame holds no carriage return, as JSON escapes it.
- UTF-8 decoding: chunks are text, as a streaming decoder delivers them.
- DropdownValues.Normalize: lower case is the host's, an arbitrary function here.
- HTTP, guards, sign-in and caller tokens, the agent SDK, model calls, workflow service calls: their outcomes are inputs.
- SQL and real time: tables are maps, a timer fires at any step, the workflow row lock of a rekey is atomicity.
- `session`, `replayed` and `snapshot` frames have no place in a consumer's output, and `WireReplay.History` sets them aside; error frames outside the log, `turn_base` and the canvas hints of the prompt: presentation.
- The agent session's transcript file, the session table's time-to-live sweep: state nothing here reads.
- Clearing a conversation drops its live session along with the thread: only the thread's deletion is modelled.
- Texts of tool results, run records and summaries: presentation.
