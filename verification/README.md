# Portuni: verified models

Models, in Dafny 4.11, of the protocols and transformations in Portuni whose correctness depends on order,
interleaving or an interruption, with proofs of what they promise. `dafny verify dfyconfig.toml` checks
everything.

How it is laid out:

- **Live session channel, server** (`apps/server/api/sessions-ws.ts`): `Broadcast`, `BroadcastRows`, `BroadcastVerdicts`,
  `Snapshots`, `SnapshotFrames`, `BroadcastServer` (newest broadcast wins, and only who may sees it), `Replay`,
  `ReplayTheorems` (gap-free subscription); and what the client makes of it (`apps/web/src/lib/session-chat.ts`):
  `Transcript`.
- **Merge of duplicate folders** (`scripts/drive-merge-dups.py`): `DriveTree`, `DriveMerge`, `DriveReport`, `DriveInside`,
  `DriveLoss`, `DriveOrder`, `DriveCall`, `DrivePairs`, `DriveGroup`, `DriveKept`, `DriveWalk`, `DriveScript`,
  `DriveTheorems`.
- **Live session channel, desktop** (`apps/desktop/src/sessions_ws.rs`): `SessionsWs`, `Backoff`, `SessionsFrames`,
  `SessionsStatus`, `SessionsRegistry`.
- **Sign-in** (`apps/desktop/src/auth.rs`): `RefreshGate`, `RefreshOutcomes`, `Callback`, `CallbackSpelling`.
- **Desktop life cycle** (`apps/desktop/src/lib.rs`, `workspace.rs`): `Quit`, `QuitAction`, `QuitQueue`, `Workspaces`,
  `ConfigStore`, `ConfigLock`, `Lifecycle`, `LifecycleTheorems`, `LifecycleFocus`, `LifecycleApp`, `Migration`,
  `MigrationTheorems`, `MigrationRun`, `PreviewPath`.
- **Managed configuration** (`apps/desktop/src/mcp_install.rs`): `CodexBlock`, `CodexTheorems`, `CodexFile`,
  `CodexRemoval`, `CodexReader`, `McpInstall`.
- **Coalesced listing** (`apps/server/auth/google-adapter.ts`): `GroupsCache`.
- `Wrappers` and `Text` hold what the others share.

A concurrent protocol is a state and a set of events. An event is what runs without interruption. On the server, one
JavaScript thread, that is a stretch from one await to the next. On the desktop, Rust threads, it is one critical
section over the data that its lock guards, one atomic load or store, one read or write of an unguarded store such as
the Keychain, or one effect: a check and the act that follows from it are two events wherever what was checked can
change in between. The quit and the window handlers are synchronous and all run on the main thread, so there a whole
handler is one event, whatever locks it takes and releases; only its timers are threads. A run is any sequence of
events, so theorems about `Run` hold for every interleaving; an event that is not enabled does nothing. Fields described
as history only record what happened.
Where it can be told from the events alone what a machine should have done (who was allowed to see what, which refresh
finished last, which window had the focus when), a module beside it defines that without the steps and proves that
every run agrees.
Beside each machine a class holds the fields the source updates, and its methods are proved to take exactly the
machine's steps.

Where the code falls short of what its comments intend, the code is modelled as it is, with a lemma that shows the
case and one that says exactly when it occurs:

- `merge_into` forgets that a nested merge left a file behind. A run loses a file exactly if it trashes a folder in which
  that happened (`DriveTheorems.RunKeepsFilesIff`). It can be told before one merge of tidy folders
  (`DriveTheorems.MergeKeepsFilesIff`), and before a run over a drive whose folders have at most one duplicate each, with
  nothing ambiguous inside the two (`DriveTheorems.WalkKeepsFilesIff`); otherwise the outcome depends on the order of the
  listing, so there the condition is on the run. `DriveTheorems.NestedConflictLosesFile`, `SevenItemsLoseAFile` and
  `SevenItemsRun` show the case. The class takes the rule as a constant: with the one intended, nothing is lost
  (`DriveTheorems.IntendedRunKeepsFiles`).
- An event can reach a live subscriber twice, because it is appended and published awaits apart
  (`ReplayTheorems.ReceivedOnceOrTwice`, `DuplicateRun`); the client tells it apart (`Transcript.ShownIsExact`).
- The snapshot of a new connection can land behind a newer broadcast (`Snapshots.LastRowIsNewIff`,
  `SnapshotCanLandLast`), and broadcasts can send an older row after a newer one until the newest event lands
  (`BroadcastRows.RowsStepBackIff`, `RowsCanStepBack`).
- A loop retired between its check and its emit still says its status (`SessionsWs.RetiredIsHeardIff`, `LateOpen`), and
  `Outbox::close` can be followed by pops of the disconnected loop (`SessionsWs.DisconnectedLoopPopsIff`).
- A refresh can start for an outdated JWT when a login stores a new one between the check and the start
  (`RefreshGate.StartsOutdatedIff`, `LoginBehindTheCheck`).
- A fallback timer between its check and its destroy closes its window in spite of a decline (`Quit.ForcedInSpiteIff`,
  `DeclinedButForced`).
- A quit moves on, and may end, when a window other than the one being asked closes (`Quit.MovesOnWhileAskingIff`,
  `ExitsWhileAsking`); a window that opens or closes between the end of the queue and the exit makes the saved ones
  forgotten (`LifecycleTheorems.SurvivesToExitIff`, `LateCloseForgets`).
- Removing a Codex block can join its neighbours, and a later upsert then takes one of them along
  (`CodexRemoval.RemoveSeparatesIff`, `CodexRemoval.RemovalLetsUpsertSwallow`). A text that ends in the bare marker
  breaks the upsert's idempotence (`CodexTheorems.IdempotentIff`).
- Deleting the active workspace when no other is enabled fails in `save`; a comment calls the case unreachable
  (`Workspaces.DeleteRemovesIff`, `Workspaces.OnlyEnabledOneStays`).
- The migration loses a plaintext token whose Keychain write fails (`MigrationTheorems.TokenSurvivesIff`,
  `RefusedTokenIsDropped`), and a secret whose new account holds another value (`MigrationTheorems.SurvivesIff`).
- A listing can be served when it is older than its five minutes (`GroupsCache.ServedLateIff`, `JoinerMakesItOlder`).

## Model

| member | source | states |
|---|---|---|
| `Broadcast.FramesFollowEvents` | apps/server/api/sessions-ws.ts:377-411 | In every interleaving of events, row reads, visibility answers and connections, the frames of one connection carry strictly increasing event numbers |
| `Broadcast.OneNumbering` | apps/server/api/sessions-ws.ts:379-384 | Deleting the counters when nothing is in flight never gives two broadcasts under way different counters or one turn number twice |
| `Broadcast.NewestWins` | apps/server/api/sessions-ws.ts:372-376 | Once nothing is in flight (last visibility check not failed) the last claim is the newest event whose read succeeded, with a row at least as new, and it was the last broadcast to every open connection it came to that may see the session; it came to all connections made before the event |
| `Broadcast.NoneWaitsForAnother` | apps/server/api/sessions-ws.ts:375-376 | A broadcast under way can always take its own next step, whatever the others wait for |
| `BroadcastVerdicts.FramesAreDue` | apps/server/api/sessions-ws.ts:390-403 | In every run a frame goes only to a connection for whose user the broadcast was told, by its first answer, that he may see the session, and it carries the row that broadcast read |
| `BroadcastVerdicts.NewestIsSentIff` | apps/server/api/sessions-ws.ts:372-403 | Told from the events alone: once nothing is in flight the last claim is that of the newest event whose read found a row, no older than the event; unless a check failed it came to all connections made before the event, and the last frame of an open one is the event's exactly if the answer about its user was yes |
| `BroadcastVerdicts.SentWhileOpen` | apps/server/api/sessions-ws.ts:201-203 | Every event sends one frame at most, to a connection that is open at that moment |
| `BroadcastVerdicts.BroadcastsAdvance` | apps/server/api/sessions-ws.ts:386-410 | With each of its own events a broadcast ends or gets further; no other event ends or moves it |
| `BroadcastVerdicts.CountersAreDropped` | apps/server/api/sessions-ws.ts:407-410 | The session has a counters entry exactly while a broadcast of it is under way |
| `BroadcastRows.RowsStepBackIff` | apps/server/api/sessions-ws.ts:388-392 | A claim sends an older row than an earlier claim exactly if its read was answered first and the row changed between the two answers |
| `BroadcastRows.RowsCanStepBack` | apps/server/api/sessions-ws.ts:388-403 | It happens: a run in which a connection gets an older row after a newer one, before the newest event lands |
| `Snapshots.LastRowIsNewIff` | apps/server/api/sessions-ws.ts:416-419 | With the snapshot of each connection: once nothing is in flight, the last row a window that may see the session received is as new as the newest event exactly if no snapshot read before that was sent behind the frame of the event; a connection made later got only a snapshot that new |
| `Snapshots.SnapshotCanLandLast` | apps/server/api/sessions-ws.ts:689-718 | It happens: a snapshot read before the change is sent behind the broadcast of the change |
| `Snapshots.BroadcastsGoOn` | apps/server/api/sessions-ws.ts:416-419 | Snapshots do not disturb the broadcasts: every run with them is a run of the broadcasts alone |
| `SnapshotFrames.UpdatesAreDue` | apps/server/api/sessions-ws.ts:403 | Among all that a window is sent, the frames of broadcasts are due to it |
| `SnapshotFrames.SnapshotSentIff` | apps/server/api/sessions-ws.ts:416-419 | The snapshot of an open connection, once it is no longer awaited, was sent with a row exactly if that row was read for it as one its user may see |
| `SnapshotFrames.SentWhileOpen` | apps/server/api/sessions-ws.ts:201-203 | Whatever is sent goes to a connection open at that moment |
| `BroadcastServer.Broadcasts.Begin` | apps/server/api/sessions-ws.ts:378-387 | From the event to the first await, one `Fire` step: a fresh turn of the shared counters |
| `BroadcastServer.Broadcasts.RowArrived` | apps/server/api/sessions-ws.ts:387-399 | Behind the read, one `ReadReturns` step: give up, or claim the send and ask for the first connection |
| `BroadcastServer.Broadcasts.VerdictArrived` | apps/server/api/sessions-ws.ts:399-410 | Behind a visibility answer, one `VerdictReturns` step: stop when overtaken or failed, else send and go to the next connection |
| `BroadcastServer.Broadcasts.Opened` | apps/server/api/sessions-ws.ts:679-718 | A connection is added and its snapshot asked for in one segment |
| `BroadcastServer.Broadcasts.SnapshotArrived` | apps/server/api/sessions-ws.ts:416-419 | Behind the snapshot read, one frame with what was read, if the socket is still open |
| `Replay.Subscription.HandleSubscribe` | apps/server/api/sessions-ws.ts:457-492 | Whatever is appended and published around each page read, the subscriber has been sent pages that hold the log above its start as the last page read it, and behind them, event by event and delta by delta in the order in which they came, what was published meanwhile and is not in that log |
| `Replay.Subscription.Flush` | apps/server/api/sessions-ws.ts:487-492 | The frames of the buffer go out in its order, events and deltas among each other, without the events the replay covered |
| `Replay.KeptExactly` | apps/server/api/sessions-ws.ts:488-492 | Of any happenings exactly those that are not covered go out, each once, in the order in which they happened: no delta overtakes an event, nor the other way round |
| `Replay.Subscription.Happen` | apps/server/api/sessions-ws.ts:463-469 | An append changes the log only; a publication is buffered while replaying and sent when live, a rename is ignored |
| `Replay.Subscription.HappenWhileLive` | apps/server/api/sessions-ws.ts:463-469 | Live, every event and delta is sent as one frame, in the order of publication |
| `Replay.AboveExact` | apps/server/api/sessions-ws.ts:474-485 | What lies above `a` is exactly the events of the log numbered above it, in increasing order |
| `ReplayTheorems.ReceivedOnceOrTwice` | apps/server/domain/runner/session-runtime.ts:583-592 | With appending and publishing awaits apart: no event above the start is lost; it comes twice exactly if the last page held it already and it was published after the flush, otherwise once |
| `ReplayTheorems.EachOnceIff` | apps/server/api/sessions-ws.ts:487-492 | A subscriber receives only events above its start, each once, exactly if every event published after the flush lies above the start and was not in the last page |
| `ReplayTheorems.UnaskedIff` | apps/server/api/sessions-ws.ts:463-469 | An event at or below the start is received exactly if it is published after the flush |
| `ReplayTheorems.InOrderIff` | apps/server/api/sessions-ws.ts:463-492 | Where publications follow the order of the log, the numbers received increase strictly exactly under the same condition |
| `ReplayTheorems.DuplicateRun` | apps/server/domain/runner/session-runtime.ts:588-591 | It happens: appended, read by the last page, published after the flush, sent twice |
| `Transcript.ShownIsExact` | apps/web/src/lib/session-chat.ts:52-69 | From any list in order that it has of this log, however publications fall, the client shows strictly increasing numbers and, above its start, exactly what it had, what the last page held and what was published |
| `Transcript.InsertKeeps` | apps/web/src/lib/session-chat.ts:57-69 | Inserting keeps the order and adds exactly what was not there |
| `Transcript.InsertManyBySeq` | apps/web/src/lib/session-chat.ts:57-69 | The loop with its set of numbers seen yields the insertion |
| `DriveScript.Drive.MergeInto` | scripts/drive-merge-dups.py:70-96 | For every drive and listing order: the paths with a live file stay, nothing outside the duplicate's path changes, no new twins; the folder stays iff a file clashed in it (intended rule: or a nested one stayed), and the report tells exactly whether a file was lost; for tidy folders that is `DriveLoss.Loses` |
| `DriveScript.Drive.Walk` | scripts/drive-merge-dups.py:99-113 | For every drive and listing order: terminates, keeps the paths with a live file, reports every conflict and every loss truly; below the only folder of its path, without a conflict, no two folders share a path afterwards |
| `DriveTree.MoveKeepsLive` | scripts/drive-merge-dups.py:89-94 | Moving an item between two live folders of one path changes neither any path nor what is live |
| `DriveTree.PathsAreUnique` | scripts/drive-merge-dups.py:70-80 | The path of names of every item is determined by the tree |
| `DriveTheorems.MergeKeepsFilesIff` | scripts/drive-merge-dups.py:80-96 | For tidy folders `merge_into` keeps every live file exactly when no pair of merged folders without a clashing file of its own holds a pair with one |
| `DriveTheorems.WalkKeepsFilesIff` | scripts/drive-merge-dups.py:99-113 | Where folders have at most one namesake beside them, the two tidy inside, a run from the root keeps every live file exactly if no such pair loses one; which of the two is older does not matter |
| `DriveLoss.LosesUnrolled` | scripts/drive-merge-dups.py:80-81 | The loss of a merge is its own dropped nested conflict or the loss of a nested merge |
| `DriveTheorems.RunKeepsLivePaths` | scripts/drive-merge-dups.py:8-11 | Whatever conflicts it meets, a run neither adds nor removes a path that has a live file |
| `DriveTheorems.OldestStays` | scripts/drive-merge-dups.py:2-11 | Over a whole run a folder older than every namesake beside it, on the way down from the folder walked, is live afterwards, unchanged and in its place |
| `DriveTheorems.OneOldestStays` | scripts/drive-merge-dups.py:106-112 | With equal ages too: of every group in such a folder one that none is older than stays; in a group of the folder walked, each free place in it goes to the oldest item of the oldest of the others that has something for it |
| `DriveTheorems.MergeLeavesKept` | scripts/drive-merge-dups.py:65-94 | A merge changes nothing in the folder it keeps, and no item outside the duplicate |
| `DriveTheorems.MergeMovesOldest` | scripts/drive-merge-dups.py:76-89 | Of the children of a duplicate that share name and kind none moves if the kept folder has one, else an oldest one does, as it is, and the others stay |
| `DriveTheorems.InnerNamesakeStays` | scripts/drive-merge-dups.py:80-81 | Below two merged folders age does not matter: of two folders of one name that in the kept folder stays |
| `DriveTheorems.RunMergesIff` | scripts/drive-merge-dups.py:8-11 | On every drive a run from the root reaches its purpose (every file live, no two folders of one path) exactly if it met no file conflict |
| `DriveTheorems.ConflictForeseen` | scripts/drive-merge-dups.py:82-84 | It meets none if no two live files share a path; where no folder holds two files of one name, only then |
| `DriveTheorems.RunKeepsFilesIff` | scripts/drive-merge-dups.py:80-96 | On every drive a run loses a file exactly if it trashed a folder in which a nested merge had left one in place; never if no two live files share a path |
| `DriveTheorems.IntendedRunKeepsFiles` | scripts/drive-merge-dups.py:92-96 | If a nested folder left in place also keeps the one around it, every run keeps every live file under its path, on every drive |
| `DriveTheorems.SharedPathsPreventMerge` | scripts/drive-merge-dups.py:82-88 | Two live files in different folders with one path cannot both stay once folders are unique |
| `DriveTheorems.NestedConflictLosesFile` | scripts/drive-merge-dups.py:80-81 | Line 81 drops the nested outcome: for every such drive, of two files of one name below a folder without a direct conflict one is lost |
| `DriveTheorems.SevenItemsLoseAFile` | scripts/drive-merge-dups.py:80-81 | The smallest such drive, /a/x/u twice: the hypotheses hold and one merge loses one of the two files |
| `DriveTheorems.SevenItemsRun` | scripts/drive-merge-dups.py:99-113 | So does every run over it from the root |
| `SessionsWs.EachFrameInOnePlace` | apps/desktop/src/sessions_ws.rs:103-145 | Between two disconnects every accepted frame is in exactly one of popped, cancelled, queued, over any number of carry-overs |
| `SessionsWs.PoppedOnceInOrder` | apps/desktop/src/sessions_ws.rs:117-119 | Frames are popped in push order, none twice |
| `SessionsWs.CancelTakesOut` | apps/desktop/src/sessions_ws.rs:111-115 | Cancel removes every queued frame with that id and nothing else |
| `SessionsWs.CancelledStaysUnsent` | apps/desktop/src/sessions_ws.rs:250-256 | A frame cancelled while queued is never popped in any continuation |
| `SessionsWs.RetiredSaysWhatItOwes` | apps/desktop/src/sessions_ws.rs:264-278 | A superseded or disconnected loop never becomes current again, and in any continuation says just the one status it was cleared for, if any |
| `SessionsWs.RetiredIsHeardIff` | apps/desktop/src/sessions_ws.rs:274-278 | It is heard once more at most, and can be exactly if it was retired between its check and its emit |
| `SessionsWs.LateOpen` | apps/desktop/src/sessions_ws.rs:440-446 | It happens: disconnected in between, a loop says `open` |
| `SessionsWs.CurrentIsNewest` | apps/desktop/src/sessions_ws.rs:206-231 | The current generation of a window is the newest of all its outboxes |
| `SessionsWs.ReplacedLoopPopsNothing` | apps/desktop/src/sessions_ws.rs:126-145 | A loop retired by `register` pops nothing more, in any continuation |
| `SessionsWs.DisconnectedLoopPopsIff` | apps/desktop/src/sessions_ws.rs:121-125 | After a disconnect the old loop can still pop exactly when it is draining or writing with frames left in its queue |
| `SessionsFrames.AcceptedIsSomewhere` | apps/desktop/src/sessions_ws.rs:241-248 | Told from the commands: every frame sent while connected since the last disconnect is written, cancelled or queued, one of the three; no other frame is |
| `SessionsFrames.QueuedAsSent` | apps/desktop/src/sessions_ws.rs:103-109 | A queued frame carries the request id it was sent with |
| `SessionsStatus.SaysWhatHappened` | apps/desktop/src/sessions_ws.rs:440-446 | A loop says `open` for a socket that has come and `reconnecting` for one that failed or was lost |
| `SessionsStatus.WebviewKnows` | apps/desktop/src/sessions_ws.rs:264-278 | While the current loop drains, writes or waits the webview was last told `open`, and while it sleeps `reconnecting` |
| `SessionsStatus.CurrentLoopLives` | apps/desktop/src/sessions_ws.rs:379-445 | The loop of the current connection never gives up, whatever fails, and can always go on |
| `SessionsRegistry.WindowChannel.Register` | apps/desktop/src/sessions_ws.rs:206-231 | New generation, old outbox closed and emptied, its frames ahead of anything sent later |
| `SessionsRegistry.WindowChannel.Cancel` | apps/desktop/src/sessions_ws.rs:250-256 | The loop over the queue is the `Cancel` step |
| `SessionsRegistry.WindowChannel.Push` | apps/desktop/src/sessions_ws.rs:241-248 | Accepted at the end of the current outbox, refused without one |
| `SessionsRegistry.WindowChannel.Drain` | apps/desktop/src/sessions_ws.rs:451-461 | Pops the first frame and goes on to write it, or goes on waiting |
| `SessionsRegistry.WindowChannel.ConnectEnded` | apps/desktop/src/sessions_ws.rs:439-446 | Behind the upgrade the loop asks whether it is current: gone, cleared for `open`, or on to say `reconnecting` |
| `SessionsRegistry.WindowChannel.Emit` | apps/desktop/src/sessions_ws.rs:274-278 | The status goes out without another check |
| `SessionsWs.SleepsFor` | apps/desktop/src/sessions_ws.rs:42-44 | Over every run a loop that sleeps after k failures in a row sleeps min(1000 * 2^(k-1), 30000) ms |
| `SessionsWs.ConnectedStartsOver` | apps/desktop/src/sessions_ws.rs:445 | A loop with an open socket has no failure behind it and the least delay before it |
| `SessionsRegistry.WindowChannel.SleepEnded` | apps/desktop/src/sessions_ws.rs:507-511 | A superseded loop returns, the current one doubles its delay and connects again |
| `SessionsRegistry.SleepUnlessSuperseded` | apps/desktop/src/sessions_ws.rs:518-530 | Slept in slices that sum to the whole wait iff the generation stayed current at every check, and no longer otherwise |
| `RefreshGate.OneRefreshAtATime` | apps/desktop/src/auth.rs:705-745 | At most one refresh runs at a time, cancellations included |
| `RefreshGate.OneAttemptPerGeneration` | apps/desktop/src/auth.rs:741-744 | At most one refresh finishes per generation value |
| `RefreshGate.StartsAreCounted` | apps/desktop/src/auth.rs:727-732 | Requests of one generation start one refresh between them, and one more for each that was cancelled half-way |
| `RefreshGate.StoredJwtStopsRefreshes` | apps/desktop/src/auth.rs:733-739 | Over every run, as long as one JWT stays stored requests sent with another start no refresh, but for the one that was cleared for it before |
| `RefreshGate.StartsOutdatedIff` | apps/desktop/src/auth.rs:733-740 | With one JWT stored at most one refresh still starts for another, and one can exactly if the holder of the lock stood between its check and its start |
| `RefreshGate.LoginBehindTheCheck` | apps/desktop/src/auth.rs:539 | It happens: a login stores a new JWT right behind the check, and the refresh starts for the old one |
| `RefreshGate.SharedOutcomeIsLater` | apps/desktop/src/auth.rs:728-732 | A request with an outdated snapshot takes the outcome of a refresh that finished after that snapshot |
| `RefreshOutcomes.OutcomeIsShared` | apps/desktop/src/auth.rs:728-732 | A request that takes the lock when a refresh has finished since it was sent is sent again exactly if the last one brought a JWT and one is stored, with the one stored then; otherwise it is over |
| `RefreshOutcomes.StoredJwtIsTried` | apps/desktop/src/auth.rs:733-739 | When none has finished since, it is sent again exactly if another JWT than its own is stored, with that one; otherwise it keeps the lock to refresh |
| `RefreshOutcomes.OwnRefreshIsTried` | apps/desktop/src/auth.rs:740-745 | The request that refreshed is sent again exactly if its refresh brought a JWT, with that one |
| `RefreshOutcomes.ResentByThese` | apps/desktop/src/auth.rs:803-807 | Nothing else sends a request again |
| `RefreshOutcomes.SecondSharesTheFirst` | apps/desktop/src/auth.rs:695-700 | It happens: of two requests with one outdated JWT the second is sent again with the JWT the first has brought |
| `RefreshGate.AtMostTwoSends` | apps/desktop/src/auth.rs:782-807 | Each request sends at least once and at most twice |
| `RefreshGate.LockIsNeverStuck` | apps/desktop/src/auth.rs:727 | While nobody holds the lock any waiter can take it, and its holder can always go on or finish |
| `RefreshGate.Gate.Resolve` | apps/desktop/src/auth.rs:727-739 | From the lock to the read of the stored JWT: share, retry at once, or go on to the refresh |
| `RefreshGate.Gate.Begin` | apps/desktop/src/auth.rs:740 | The refresh starts without a second look at the stored JWT |
| `RefreshGate.Gate.Finish` | apps/desktop/src/auth.rs:740-744 | The outcome is remembered, the generation counted on, the lock released |
| `Callback.DecodeUndoesEncode` | apps/desktop/src/auth.rs:314-357 | Decoding an encoded byte string gives back its bytes as character codes, for every byte string (sections 2.1 and 2.3 of RFC 3986) |
| `Callback.TextSurvivesIff` | apps/desktop/src/auth.rs:314-357 | Encoding then decoding gives a text back exactly when it is ASCII |
| `Callback.EncodedIsPlain` | apps/desktop/src/auth.rs:316-330 | An encoded value holds only unreserved characters and percent signs, so nothing the parser splits on |
| `CallbackSpelling.AnySpellingDecodes` | apps/desktop/src/auth.rs:335-357 | However each byte is written, as itself, escaped with digits of either case, or a space as a plus, the decoder gives it back |
| `CallbackSpelling.StrayPercentStays` | apps/desktop/src/auth.rs:341-350 | A percent sign that begins no escape is kept, and what follows is decoded as it is |
| `Callback.CallbackComesThrough` | apps/desktop/src/auth.rs:299-312 | For every list of ASCII parameters in any order the parser gives back the code and state given last, or nothing if one is missing (section 4.1.2 of RFC 6749) |
| `Callback.PrefixTellsKeys` | apps/desktop/src/auth.rs:305-310 | A part is taken for a key exactly when that is its key, keys that start one another included |
| `Callback.PercentEncode` | apps/desktop/src/auth.rs:316-330 | The loop over the bytes yields the encoding |
| `Callback.UrlDecode` | apps/desktop/src/auth.rs:333-357 | The loop with its look-ahead yields the decoding, malformed escapes and the digit pair with a plus sign included |
| `Callback.ParseCallback` | apps/desktop/src/auth.rs:299-312 | The loop over the parts yields the last code and state |
| `Quit.EachAskedOnceInOrder` | apps/desktop/src/lib.rs:92-168 | One sequence asks each queued window at most once, in queue order, and runs its action at most once, only with the queue empty and no decline |
| `Quit.NobodyPassedOver` | apps/desktop/src/lib.rs:137-149 | When the action runs, every window still open that was there from the beginning has been asked |
| `QuitAction.RunsWhatWasRequested` | apps/desktop/src/lib.rs:118-132 | A sequence runs the action of the request that began it; a second request changes nothing |
| `QuitAction.OldWindowsWereAsked` | apps/desktop/src/lib.rs:137-149 | When the action runs, every window there that has not opened since the request has been asked, told from the events |
| `Quit.DeclineIsFinal` | apps/desktop/src/lib.rs:228-244 | After a decline, in any continuation without a new quit request, nobody is asked, no action runs and no timer finds itself current; only timers that had before may still close their window |
| `Quit.ForcedInSpiteIff` | apps/desktop/src/lib.rs:207-226 | A window can be closed in spite of a decline exactly by a timer that was between its generation check and its destroy |
| `Quit.DeclinedButForced` | apps/desktop/src/lib.rs:207-226 | It happens: declined just behind the check, the only window is closed unasked |
| `Quit.EachTimerActsOnce` | apps/desktop/src/lib.rs:204-226 | Every timer closes its window at most once |
| `Quit.ForcedWasAskedLast` | apps/desktop/src/lib.rs:207-226 | A timer closes a window only after it found its generation current, when the window was the one asked last with no decline since; with the same generation at the act that is still so |
| `Quit.OneAtATime` | apps/desktop/src/lib.rs:44-49 | As long as windows close in turn, at most one asked window awaits its answer |
| `Quit.MovesOnWhileAskingIff` | apps/desktop/src/lib.rs:3609-3615 | The sequence moves on while a window is still being asked exactly when some other window is destroyed, and ends then exactly when nothing else queued is open |
| `Quit.ExitsWhileAsking` | apps/desktop/src/lib.rs:3612-3615 | Two windows: closing the second by hand runs the exit while the first is still asked |
| `QuitQueue.Desktop.AdvanceQuit` | apps/desktop/src/lib.rs:137-168 | The recursion over vanished windows terminates and is the `AdvanceQuit` step |
| `QuitQueue.Desktop.BeginQuit` | apps/desktop/src/lib.rs:116-129 | A second request while quitting is ignored, else the listed windows are queued and the first is asked |
| `QuitQueue.Desktop.DeclineExit` | apps/desktop/src/lib.rs:238-244 | Bumps the generation and drops the sequence |
| `QuitQueue.Desktop.FallbackWakes` | apps/desktop/src/lib.rs:207-213 | Goes on iff no later timer was armed and nobody declined up to the load of the generation |
| `QuitQueue.Desktop.FallbackActs` | apps/desktop/src/lib.rs:221-225 | Destroys the window if it is still there, without another check |
| `QuitQueue.Desktop.OnExitRequested` | apps/desktop/src/lib.rs:3645-3652 | Prevents the exit exactly while windows are open, and begins a quit then |
| `Workspaces.AllocatedPort` | apps/desktop/src/workspace.rs:185-194 | The port is free; it is the least free one from 47011 on exactly if there is one from there on, as with at most 18524 ports in use |
| `Workspaces.FirstFreeWithin` | apps/desktop/src/workspace.rs:187-194 | By pigeonhole the free port comes within one more probe than there are ports in use |
| `Workspaces.AllocationOverflows` | apps/desktop/src/workspace.rs:190-192 | With 18525 ports in use the 16-bit count of a release build wraps to port 0 (with overflow checks it panics) |
| `Workspaces.CreateAdds` | apps/desktop/src/lib.rs:3198-3230 | A new workspace is saved iff its id is valid and new; its port is its own, everything else stays |
| `Workspaces.SetEnabledSwitches` | apps/desktop/src/lib.rs:3256-3279 | Fails only for an open window or an unknown id; a disabled active workspace hands over to the most recently focused enabled one, else the first enabled, else it stays active |
| `Workspaces.SetActiveIff` | apps/desktop/src/lib.rs:3245-3253 | Any known workspace becomes the active one, and nothing else changes |
| `Workspaces.DeleteRemovesIff` | apps/desktop/src/lib.rs:3292-3329 | Deletion succeeds iff the window is closed, it is not the last, it is known, and, if active, another one is enabled; then the active one is the most recently focused enabled one, else the first enabled |
| `Workspaces.OnlyEnabledOneStays` | apps/desktop/src/lib.rs:685-690 | Deleting the active workspace when no other is enabled is refused by `save`, although the comment calls that case unreachable |
| `Workspaces.ReassignedIs` | apps/desktop/src/lib.rs:673-690 | The most recently focused enabled survivor, else the first enabled in id order, else the id itself |
| `Workspaces.PersistSavesIff` | apps/desktop/src/lib.rs:702-723 | The window set is saved iff the window focused last has a workspace |
| `Workspaces.TokenEnvVarsDiffer` | apps/desktop/src/workspace.rs:166-171 | `token_env_var` is injective on valid ids |
| `Workspaces.KeychainAccountsDiffer` | apps/desktop/src/workspace.rs:173-175 | Accounts of different bases or ids differ |
| `ConfigStore.ValidateEntries` | apps/desktop/src/workspace.rs:124-138 | The loop finds no flaw iff all ids are valid and all ports distinct, and names a real flaw otherwise |
| `ConfigStore.Validate` | apps/desktop/src/workspace.rs:114-138 | Accepts exactly the sound files; each refusal is justified |
| `ConfigStore.AllocatePort` | apps/desktop/src/workspace.rs:187-194 | The probing loop, with its overflowing counter, ends at the first free port |
| `ConfigStore.ReassignActive` | apps/desktop/src/lib.rs:673-690 | The two searches give the successor of `ReassignedIs` |
| `ConfigStore.Store.CreateWorkspace` | apps/desktop/src/lib.rs:3198-3230 | The file on disk becomes the created one, or nothing is written and the error says why |
| `ConfigStore.Store.SetWorkspaceEnabled` | apps/desktop/src/lib.rs:3256-3279 | Likewise for enabling and disabling |
| `ConfigStore.Store.DeleteWorkspace` | apps/desktop/src/lib.rs:3292-3329 | Likewise for deleting |
| `ConfigStore.Store.PersistOpenWindows` | apps/desktop/src/lib.rs:702-723 | Nothing is written during a quit; otherwise the windows and the last focused workspace are saved together |
| `ConfigLock.WritersTakeTurns` | apps/desktop/src/lib.rs:471-488 | Any interleaving of writers equals their changes made one after the other, each successful one exactly once: no update is lost |
| `ConfigLock.FileStaysSound` | apps/desktop/src/workspace.rs:140-149 | At every point, a crash included, config.json is a whole file that passes `validate` |
| `LifecycleTheorems.SavedIsLastOutside` | apps/desktop/src/lib.rs:692-723 | In every run `open_windows` lists, once each, the workspace windows right after the last event that opened or closed one outside a quit |
| `LifecycleTheorems.SavingNeverFails` | apps/desktop/src/lib.rs:714-722 | In every reachable state the window set passes the check of `save` |
| `LifecycleTheorems.FocusNamesOpenWindows` | apps/desktop/src/lib.rs:656-664 | The focus history has no duplicates and names open windows only; every open window has its workspace |
| `LifecycleFocus.FocusIsRecency` | apps/desktop/src/lib.rs:656-664 | The history names exactly the windows that had the focus since they opened, in the order of their last focus |
| `LifecycleFocus.SecondLaunchRaisesLatest` | apps/desktop/src/lib.rs:595-616 | A second launch raises the window focused last of those still open, else that of the active workspace |
| `LifecycleTheorems.WindowsFollow` | apps/desktop/src/lib.rs:3160-3245 | Which windows there are after each event: a switch opens an enabled workspace only, a creation the new one, and only what is destroyed closes |
| `LifecycleTheorems.PortsStay` | apps/desktop/src/workspace.rs:27-29 | Over every run a workspace keeps its port for as long as it is there |
| `LifecycleTheorems.OutsideItSettles` | apps/desktop/src/lib.rs:77-79 | Outside a quit every open or close makes the saved set the set of open windows, and nothing else unsettles it |
| `LifecycleTheorems.QuitThenLaunch` | apps/desktop/src/lib.rs:540-558 | From a quit up to and over the exit, as long as no workspace window opens or closes outside a quit: the next launch opens, once and in order, exactly the windows saved when it began whose workspace is still there and enabled, else the active one, else none |
| `LifecycleTheorems.SurvivesToExitIff` | apps/desktop/src/lib.rs:155-165 | Between the end of the queue and the exit, without a second quit: what was saved is still saved exactly if no workspace window opened or closed there, otherwise nothing is |
| `LifecycleTheorems.LateCloseForgets` | apps/desktop/src/lib.rs:155-165 | The sequence is over before the exit it asks for: a window still asked that closes in between leaves nothing saved to reopen |
| `LifecycleTheorems.RestoredIs` | apps/desktop/src/lib.rs:540-550 | The restored windows are the saved ones whose workspace is there and enabled, in their order |
| `LifecycleApp.App.OnDestroyed` | apps/desktop/src/lib.rs:3593-3615 | Untrack, persist unless quitting, then advance the quit: the `Destroyed` step |
| `LifecycleApp.App.OnFocused` | apps/desktop/src/lib.rs:3616-3626 | Only the focus history changes |
| `LifecycleApp.App.OpenWorkspaceWindow` | apps/desktop/src/lib.rs:3166-3183 | Opens and saves for a known enabled workspace without a window, else changes nothing |
| `LifecycleApp.App.FocusOrOpenMostRecent` | apps/desktop/src/lib.rs:592-624 | The window focused last, else the active workspace |
| `LifecycleApp.App.CreateStartupWindows` | apps/desktop/src/lib.rs:577-590 | A launch ends with exactly the selected windows open and saved, or with the bootstrap window and the file untouched |
| `LifecycleApp.App.DeleteWorkspace` | apps/desktop/src/lib.rs:3292-3329 | The `Deletes` step, refused while the window is open |
| `LifecycleApp.StartupWindows` | apps/desktop/src/lib.rs:540-558 | The filter loop with its fallbacks |
| `LifecycleApp.Retain` | apps/desktop/src/lib.rs:656-664 | The loop drops exactly the one id |
| `MigrationTheorems.CutsDoNotMatter` | apps/desktop/src/lib.rs:1228-1291 | Cut after any steps, with any failures, any number of times, one attempt that gets through ends where a single uninterrupted one does, unless one before completed over a passed failure |
| `Migration.StepKeeps` | apps/desktop/src/lib.rs:1247-1284 | Every step leads to the same final world |
| `MigrationTheorems.NothingIsLost` | apps/desktop/src/lib.rs:1258-1278 | Whatever fails and wherever it is cut, no database file is lost, doubled or written over, and each secret is in one of its two accounts |
| `MigrationTheorems.SurvivesIff` | apps/desktop/src/lib.rs:1270-1277 | A secret survives iff its new account is free or holds the same value |
| `MigrationTheorems.CompletesIff` | apps/desktop/src/workspace.rs:203-220 | An attempt without failures completes iff no database file is in both places |
| `MigrationTheorems.ConflictStopsIt` | apps/desktop/src/workspace.rs:212-217 | A file in both places stops every attempt before the secrets and before the marker |
| `MigrationTheorems.RefusedTokenIsDropped` | apps/desktop/src/lib.rs:1187-1198 | A refused Keychain write of the plaintext token ends as if there had been no token, since the marker overwrites the file |
| `MigrationTheorems.TokenSurvivesIff` | apps/desktop/src/lib.rs:1158-1216 | For arbitrary attempts, cut anywhere with any failures: the plaintext token is in the file or in an account exactly if no attempt reached the completion marker after the Keychain had refused the token while no account held it |
| `MigrationTheorems.MigratedIsSound` | apps/desktop/src/workspace.rs:274-290 | The migrated file passes `validate` for every valid id |
| `MigrationTheorems.OldSettingsComeAlong` | apps/desktop/src/workspace.rs:274-290 | However often it was cut and whatever failed, a completed migration of a flat file leaves one workspace, enabled and active, with the old port or 47011, every old setting and the entry name `portuni` |
| `MigrationRun.Device.ApplyMigrationFiles` | apps/desktop/src/workspace.rs:203-220 | The loop over the four files is the first part of an attempt |
| `MigrationRun.Device.MigrateTokenToKeychain` | apps/desktop/src/lib.rs:1164-1216 | Saving and stripping the token, with its early return |
| `MigrationRun.Device.MoveSecrets` | apps/desktop/src/lib.rs:1258-1278 | Copy if missing, then delete, for the five bases |
| `MigrationRun.Device.MigrateToWorkspaces` | apps/desktop/src/lib.rs:1231-1284 | The whole command, cut anywhere and with any failures, is `Attempt` |
| `CodexTheorems.LaterWinsIff` | apps/desktop/src/mcp_install.rs:101-157 | A second upsert of a name overwrites the first, unless the text had no block but ended in the bare marker |
| `CodexTheorems.IdempotentIff` | apps/desktop/src/mcp_install.rs:101-157 | An upsert done twice is done once, with the same exception |
| `CodexTheorems.ReplacesOnlyTheBlock` | apps/desktop/src/mcp_install.rs:122-146 | Replacing a separated block keeps every other character, but for a lone newline at the end |
| `CodexTheorems.SeparatedBlocksStay` | apps/desktop/src/mcp_install.rs:122-146 | With a blank line between two blocks the upsert of the first leaves the second, and all else, as it is |
| `CodexFile.UpsertReplacesItsBlock` | apps/desktop/src/mcp_install.rs:122-146 | In a whole file of separated blocks the upsert of a name that has one replaces that block; all others and the text between stay, and so does the separation |
| `CodexFile.UpsertAddsItsBlock` | apps/desktop/src/mcp_install.rs:148-156 | The upsert of a new name puts its block last, separated like the others, which stay |
| `CodexFile.FindsOwnBlock` | apps/desktop/src/mcp_install.rs:116-121 | In such a file a marker is found at its own block, or nowhere |
| `CodexReader.UpsertIsRead` | apps/desktop/src/mcp_install.rs:101-157 | A reader of lines that knows nothing of blocks reads back, in every text, the address as the address and the variable as the variable behind the marker |
| `CodexReader.UpsertIsServed` | apps/desktop/src/mcp_install.rs:107-110 | By the header of the table alone it is read back too, unless the text before has such a header |
| `CodexTheorems.MarkerTellsNames` | apps/desktop/src/mcp_install.rs:116-121 | A marker found in a block is its own: a name that is a prefix of another never matches its block |
| `CodexTheorems.OtherBlockStaysIff` | apps/desktop/src/mcp_install.rs:122-157 | The block of another name stays, and stays separated, unless the found block runs into it without a blank line: then it is gone |
| `CodexTheorems.BareMarkerRepeats` | apps/desktop/src/mcp_install.rs:149-156 | Behind a bare marker the second upsert does not overwrite the first |
| `CodexBlock.BlockEnds` | apps/desktop/src/mcp_install.rs:123-129 | A block written by an upsert ends at the blank line behind it, or with the text |
| `CodexRemoval.RemoveUndoesUpsertIff` | apps/desktop/src/mcp_install.rs:160-180 | Removal gives the text back exactly when it was empty, or not blank, without the marker and ending in exactly one newline |
| `CodexRemoval.RemoveSeparatesIff` | apps/desktop/src/mcp_install.rs:173-178 | The block before a removed one stays separated exactly when nothing but newlines was behind the removed one |
| `CodexRemoval.RemovalLetsUpsertSwallow` | apps/desktop/src/mcp_install.rs:173-178 | For any three blocks as upserts write them: with the middle one removed, the next upsert of the first takes the third along |
| `McpInstall.UpsertCodexConfig` | apps/desktop/src/mcp_install.rs:101-157 | The text built up piece by piece is `Upsert` |
| `McpInstall.RemoveCodexBlock` | apps/desktop/src/mcp_install.rs:160-180 | The trimmed halves put together are `Remove` |
| `McpInstall.VibeLaws` | apps/desktop/src/mcp_install.rs:210-300 | The later of two upserts is left; removal behind one gives the array back iff it had none of that name |
| `McpInstall.VibeKeepsOthers` | apps/desktop/src/mcp_install.rs:250-266 | Servers of other names stay as they are, in their order |
| `McpInstall.VibeIsServed` | apps/desktop/src/mcp_install.rs:225-232 | The server is there once, as the last one, with its address under `url` and its variable under `api_key_env` |
| `McpInstall.VibeArray.RemoveNamed` | apps/desktop/src/mcp_install.rs:250-266 | The loop that removes in place leaves exactly the others |
| `PreviewPath.ResolvePreviewRequest` | apps/desktop/src/lib.rs:2013-2049 | Accepts a request iff it is permitted, and what it accepts is canonical, strictly below a folder that is at or below the root by whole components |
| `PreviewPath.LexicalNormalize` | apps/desktop/src/lib.rs:1430-1443 | The loop over the components is the walk that drops dots and steps back |
| `PreviewPath.CanonicalIff` | apps/desktop/src/lib.rs:1430-1443 | A path is a fixed point iff it has no dots for components; normalizing makes every path one |
| `PreviewPath.NormalizeBeforeJoin` | apps/desktop/src/lib.rs:2027-2035 | Normalizing the folder before joining a reference makes no difference |
| `PreviewPath.PlainReferenceStays` | apps/desktop/src/lib.rs:2034-2038 | A reference without dots names what it says below the folder |
| `PreviewPath.AbsoluteReferenceIff` | apps/desktop/src/lib.rs:2034-2036 | An absolute reference names itself whatever the folder, and lies below it exactly if its own parts do |
| `PreviewPath.RequestIsRead` | apps/desktop/src/lib.rs:2018-2034 | A folder and a reference sent as one escaped segment each are read as these |
| `PreviewPath.KindIgnoresCase` | apps/desktop/src/lib.rs:1947-1986 | The kind of a file is told from what follows the last dot of its name, in either case |
| `GroupsCache.OneFetchAtATime` | apps/server/auth/google-adapter.ts:139-150 | Of any two fetches the later one starts after the earlier has ended |
| `GroupsCache.ServedIsRecent` | apps/server/auth/google-adapter.ts:130-151 | Every snapshot served comes from a successful fetch started less than five minutes plus its own duration before the call, for joiners too |
| `GroupsCache.RejectionIsRetried` | apps/server/auth/google-adapter.ts:141-147 | A rejected fetch leaves the cache untouched, and the next call without a fresh entry fetches anew |
| `GroupsCache.MissesShareTheFetch` | apps/server/auth/google-adapter.ts:139-149 | Over every run until a fetch settles, no other starts, and every call that misses the cache meanwhile waits for that one |
| `GroupsCache.ServedLateIff` | apps/server/auth/google-adapter.ts:134-151 | Once a fetch has succeeded, some continuation serves it five minutes or more behind its start exactly if the entry is fresh and was dated by a call that joined late, or such a call is still to resume in time |
| `GroupsCache.ServedIsDated` | apps/server/auth/google-adapter.ts:150-151 | Every serve was dated by a call that had waited for its fetch, less than five minutes before; without a late joiner none is five minutes behind the start |
| `GroupsCache.JoinerMakesItOlder` | apps/server/auth/google-adapter.ts:137-151 | The bound needs the duration: an entry dated by a joiner is served longer than five minutes after its fetch began |
| `GroupsCache.Cache.ListDomainGroups` | apps/server/auth/google-adapter.ts:134-149 | Until the await, or to the end with a fresh entry: the `Call` step |
| `GroupsCache.Cache.Resume` | apps/server/auth/google-adapter.ts:150-156 | Behind the await: stored under the time of this call, or failed with the cache untouched |

## Left out

- Sockets, HTTP, windows, the Keychain, processes, files and clocks: they are maps, outcomes chosen freely, and a time
  that does not go back.
- JSON and TOML parsing, serialization and percent-decoding of preview paths: foreign code; the decoder is any function.
- Dry-run mode, listing pages, logging and counters of the merge script.
- Failures of Drive calls half-way through a run of the merge script: the model assumes each move and trash succeeds.
- Several sessions in one broadcast machine and several windows in one registry: each machine is that of one session or
  one window. Sessions share no counters; windows share only the generation counter, which other windows may advance at
  any time (`OtherWindowConnects`).
- Further subscriptions to one session by one connection while the first is still replaying.
- Delivery on the wire: a frame counts as sent when it is handed to the socket.
- Reads of the Keychain that fail silently, and a config.json cut in the middle of the plain write that strips the token.
- Lock poisoning and failed event emission; the `reconnecting` and `closed` that the commands themselves emit, which no check precedes.
- `resolveAccess` of the group adapter: a plain cache per address without coalescing.
- Filtering and slicing of a group listing by the query: the model follows the snapshot a call is given.
- The `[mcp_servers]` form check and the other keys of a Vibe file.
- The timing of the five-second fallback: a timer may wake at any moment after it was armed.
- REST handlers, route tables, roles, health checks, updater and menus: nothing hard to prove.
- Workspaces.Create: for fewer than 65536 workspaces, since with all ports taken the probing loop of the source does not end; and in a release build, since one with overflow checks panics when the count passes 65535.
- MigrationTheorems.CutsDoNotMatter: an attempt that completed must not have passed over a failure (saving or stripping the token, deleting an old account); such a failure can leave an old account behind, and `NothingIsLost` and `TokenSurvivesIff` cover what it costs.
- DriveTheorems.ConflictForeseen: exact for drives in which no folder holds two files of one name; with such twins, whether they conflict depends on which of two folders is the older, and `RunMergesIff` covers every drive by the conflicts the run meets.
- DriveTheorems.MergeKeepsFilesIff: for one merge of two folders in which no folder holds two items of one name and kind, and `WalkKeepsFilesIff` for pairs of such folders; with more namesakes the outcome depends on the order of the listing, and `RunKeepsFilesIff` covers every drive by what the run reports.
- CodexTheorems.OtherBlockStaysIff: for names that a TOML table header allows without quotes, and one-line addresses and variable names.
- CodexTheorems.LaterWinsIff: for one-line names, addresses and variable names; a line break in one of them would make the block itself end early.
- CodexRemoval.RemoveUndoesUpsertIff: likewise.
- CodexReader.UpsertIsRead: for one-line names, and addresses and variable names without line breaks and quotes, which the source does not escape.
- SessionsStatus.CurrentLoopLives: an address that is no URL, or a token that no header can hold, ends the loop of the source for good; neither is part of this model.
- DriveTheorems.OldestStays: for folders on the way down from the one walked; below two merged folders age decides nothing (`InnerNamesakeStays`), as the recursion of `merge_into` has it.
- Callback.CallbackComesThrough: for a path that holds neither white space nor a question mark, as the application sends it.
- LifecycleTheorems.QuitThenLaunch: for the time in which no window opens or closes outside a quit; `SavedIsLastOutside` says what is saved in every run. The destroyed window is taken to be gone from the window map when its event is handled.
- Replay.Subscription.HandleSubscribe: event numbers are taken to increase in the order of the appends, as one writing transaction after the other gives them; each event is published at most once.
- LifecycleTheorems.SurvivesToExitIff: without a second quit between the end of the queue and the exit; with one, `SavedIsLastOutside` says what is saved.
- MigrationRun.Device.MigrateTokenToKeychain: the plain write of config.json without the token is one step, which happens or does not.
- RefreshGate.Gate.Resolve: sharing an outcome or retrying at once takes the JWT that the read found; what the Keychain holds by the time the retry is sent is not compared.
- Snapshots.LastRowIsNewIff: for connections the newest broadcast found allowed to see the session; a window that has lost sight of it keeps the row it had.
