# MDSync, modelled and proved

A Dafny model of the parts of MDSync whose correctness spans many functions: the live-room protocol between the relay
hub and its clients, the text-merge engine, the cold sync of file manifests, the records of shared folders with the
partition they lead to, the wire format, and the relay's rate limits. Each part states what the code does on its own
terms, follows its branches and constants, and proves what the rest of the system relies on, for every input, every
run or every reachable state.

`dafny verify dfyconfig.toml` checks the project.

## How it is laid out

- **Live rooms.** An update is a set of edits, so merging is union. `Rows`, `Docs` and `Sessions` give the hub's row,
  the hub's answer to a frame and the client's session as values and functions; `Outboxes`, `RoomLogs`, `Stores`,
  `LiveSessions` and `HubDocuments` are the source's classes, whose methods change their fields and are proved to do
  exactly that. `Links`, `Rooms` and `World` are the steps of one socket, one document and one channel. `AnyFrames` and
  `World` prove what holds whatever is sent; `Streams`, `SessionProofs`, `Flights`, `Links`, `Rooms` and `WorldProofs`
  what one step keeps of a document's meaning, and `LiveRuns` what holds in every world a run reaches. `Reopenings` and
  `ReopenRuns` are about a document opened again on the socket of a session just closed: a *heeding* run does so only
  where nothing sent or owed on that socket moves a session along the log. `Answers` says what the hub's answers come to
  for readers, writers, newcomers and movers, `Deliveries` what a session puts on its socket and when, and that a resend
  gets through.
- **Merge engine.** jsdiff is a function that returns a valid edit script or nothing (`Scripts.IsDiffer`,
  `PatchCompute.IsPatcher`, `PatchText.IsCharDiffer`); the fallbacks are proved outright. `Anchors` is the anchored
  patience diff, `Regions` the diff3 regions, `MergeText` the live merge, `MergeHunks` and `MergeAbove` which hunks
  become regions of their own, `MergeEdits`, `MergeChoices`, `MergeStacks`, `MergeSessions` and `MergeExamples` the
  merge editor, `PatchOps`, `PatchHunks`, `PatchSplice` and `PatchCompute` hunk selection, `PatchText` the patch of a
  shared text.
- **Cold sync.** `SyncDiff`, `SyncMoves` and `SyncPairing` compare three manifests and pair moves; `SyncEngine` and
  `SyncPull` build file maps and pull; `SyncRuns` runs several devices over one published head. `SyncPlaces` and
  `SyncStanding` say which list a path is in through such runs, `SyncExamples` follows three of them, and `SyncProgress`
  says what a compare, a push and a pull get done.
- **Records.** `SpaceRecords` and `RecordTrades` are the last-writer-wins set and its trades, `Partition` the spaces;
  `Paths` are paths split at their slashes.
- **Wire and limits.** `Wire` writes and reads parts, `Codec` is the frame table, `CodecFrames` writes and reads frames
  part by part, `CodecProofs` relates the two directions, `CodecLayout` says which octets a frame is. `Buckets` and
  `Limits` are the token buckets.

A method that loops or changes state ties its result to a function of its inputs or its old state; what the source
promises is proved about that function.

## What turned out not to hold

- A note closed and reopened at once shares its predecessor's socket (packages/plugin/src/live/workspace/room.ts:89), and
  its session takes what the hub still owed that one. A State asked for from a later `seq` makes it join on part of the
  log and publish that as agreed (`ReopenRuns.ReopenedOnPart`); an Echo moves its `seq` past an update it does not have,
  so that after one more reconnect it joins empty and, as leader, compacts the room to nothing
  (`ReopenRuns.ReopenedOnEcho`). `Reopenings.ReopeningExactly` says after exactly which inherited frames the document is
  still the log up to `seq`: where every logged update tells something new, if and only if none is an Echo or a State
  that lacks the start of the log (`Reopenings.ReopeningStrays`). A caller can check beforehand that the session it closes
  has read its State on this socket, waits on nothing and has no rotation out: then the socket is clear
  (`WorldProofs.RestedHeeds`), and everything proved of heeding runs holds.
- With both sides of a conflict in, reverting one does not always leave just the other, and reverting both does not
  always restore the text: not where the conflict ends the file, the side taken first goes first, and either it has no
  lines there, or the second side is one empty line and so is the line above the conflict. The line above is then lost.
  `MergeStacks.RevertBoth` is the exact condition over every conflict and both orders, `MergeStacks.RevertOne` the
  one for a single revert, and `MergeExamples.SecondRevertLosesLine` and `MergeExamples.SecondRevertLosesBlank` are sessions.
- The comment at packages/plugin/src/live/text/merge.ts:5 puts the live merge on the regions the merge editor shows, but
  it does not join hunks that only meet, and the editor does. Nor is it the same from both sides: lines the other device
  inserted right above the one this device changed are a conflict, and the other way round they are not
  (`MergeHunks.ClashSwaps`): `MergeAbove.InsertedAbove` merges three texts both ways. `MergeHunks.OwnRegion` says of
  both merges exactly which hunks are regions of their own.
- A push to storage whose head has vanished changes how paths it was not asked for stand: those the baseline holds then
  read as deleted by another device. `SyncRuns.PushKeepsOthers` is the exact condition, `SyncExamples.VanishedHeadRereads`
  a run that ends there.
- Move pairing looks across paths, so a push or a pull can change the list another path is in, though not its class:
  `SyncExamples.PairingCanResolve` turns a conflict into a move. `SyncStanding.PushKeepsPlaces` and
  `SyncStanding.PullKeepsPlaces` say over every run exactly when a path keeps its list, and
  `SyncStanding.PushSparesPlaces` gives a condition to check beforehand: no pushed path has the content it pairs by.
- A close outranks every chain of fewer than 1,000,000 unseen edits, and a chain of exactly that many only by its
  author's name (`SpaceRecords.CloseOutranks`); the comment at packages/plugin/src/spaces/record.ts:61 says every edit.

## Model

| member | source | states |
|---|---|---|
| `LiveRuns.SessionIsRoom` | packages/plugin/src/live/session/session.ts:373-443 | In every world a heeding run reaches, with any number of rooms and sessions, a session's document is exactly the log up to its `seq` plus its pending and unacked edits; settled, it is exactly the room there, and so is everything `onAgreed` ever published |
| `LiveRuns.SettledAgree` | packages/plugin/src/live/session/session.ts:391-393 | Two settled sessions at one `seq` hold one text, in every world a heeding run reaches |
| `LiveRuns.CaughtUp` | packages/plugin/src/live/session/session.ts:298-371 | In such a world a joined session that is still followed and has read what is under way stands at the head of the log, its document the whole log plus what is outstanding |
| `LiveRuns.QuiescedIsRoom` | packages/plugin/src/live/session/session.ts:427-456 | In such a world an online, followed session with nothing under way and no timer, flush or resend due waits on no edit, stands at the head, and holds exactly the whole log |
| `LiveRuns.Converges` | packages/plugin/src/live/session/session.ts:298-456 | Any two such sessions of one document hold one text, whatever heeding run of edits, drops, reconnects, reopenings, compactions and rotations led there |
| `LiveRuns.NeverLost` | packages/plugin/src/live/session/room-log.ts:20-24 | Over every run without log loss, whatever socket a document is reopened on, no State a session reads makes its room look lost, so it never moves on |
| `LiveRuns.NothingStranded` | packages/plugin/src/live/session/outbox.ts:106-130 | Over every run, an online session with anything staged, pending or unacked always has a flush or a timeout armed or queued for it |
| `LiveRuns.RunKeepsDoc` | packages/plugin/src/live/session/session.ts:427-456 | No run takes an edit out of a session's document |
| `LiveRuns.EditSurvives` | packages/plugin/src/live/session/session.ts:438-443 | An edit once in a document is, however the heeding run goes on, in the room's log up to where the session stands or still outstanding there |
| `LiveRuns.EchoesAreLogged` | packages/relay/src/hub/docs.ts:220-234 | In every world a heeding run reaches, an echo under way names an entry of the log that the sender holds and that acknowledges that very update of its outbox |
| `LiveRuns.NothingLoggedIsLost` | packages/relay/src/hub/store.ts:80-190 | Whatever appends, compactions and rotations of a heeding run follow, a logged update stays in the snapshot and deltas stored for the room its document's pointers lead to |
| `LiveRuns.RestedIsHeeded` | packages/plugin/src/live/workspace/room.ts:89-107 | A run that reopens documents only on the sockets of sessions closed at rest is a heeding run |
| `LiveRuns.Follow` | packages/relay/src/hub/docs.ts:184-193 | Following pointers ends, in a room that has no pointer and whose log carries all of the first one's |
| `LiveRuns.PointersAreChains` | packages/relay/src/hub/docs.ts:160-182 | No reachable world has a pointer cycle, and no room is the target of two pointers |
| `LiveRuns.MovedStaysEmpty` | packages/relay/src/hub/store.ts:97-111 | A moved room keeps its pointer over every run and never stores log again |
| `World.DoShaped` | packages/relay/src/hub/docs.ts:84-182 | Every step of hub or client, reopening a document on any socket included, keeps rows and logs in step, every frame under way in the order of the one log, and pointers acyclic; rows, pointers and logs only grow |
| `World.RunShaped` | packages/relay/src/hub/docs.ts:84-182 | So does every run |
| `WorldProofs.DoOk` | packages/relay/src/hub/docs.ts:84-182 | Every step of hub or client (edit, drain, flush, timeout, receive, drop, cut, reconnect, reopen on a clear socket, compact, rotate, a late frame of an abandoned socket) keeps the invariant of all rooms, and rows, pointers and logs only grow |
| `WorldProofs.RunOk` | packages/relay/src/hub/docs.ts:84-182 | So does every heeding run |
| `WorldProofs.RestedHeeds` | packages/plugin/src/live/session/session.ts:193-211 | The guard: where a session is closed after it read its State on the socket, with nothing staged, pending or unacked and no rotation out, the socket is clear from then on, whatever the hub answers since |
| `WorldProofs.RotatedOk` | packages/relay/src/hub/store.ts:80-95 | Taking a rotation hands the whole log over: the target holds everything the document held, and the order of moves stays acyclic |
| `Rooms.WithFrameOk` | packages/relay/src/hub/docs.ts:84-130 | Answering the oldest frame of a socket keeps every session's link and stream in order, followers and sender alike |
| `Rooms.WithOrphanOk` | packages/relay/src/hub/docs.ts:84-130 | So does a frame that still arrives on a socket its session left |
| `Rooms.AnswerRowOk` | packages/relay/src/hub/docs.ts:112-129 | Whatever is answered, the row keeps standing for the whole log, and what was logged sits at the head it was announced with |
| `Links.SteppedOk` | packages/plugin/src/live/session/session.ts:148-211 | Each client step (local edit, staging, a drain by its timer, asked for or before a merge from outside, flush, timeout, read, socket change, rotation, dispose) keeps the session in order with what is under way to it |
| `Links.ReopenedOk` | packages/plugin/src/live/session/session.ts:101-104 | On a clear socket a session opened behind the frames of the one closed is as much in order as on a socket of its own |
| `Flights.RestLeavesNothing` | packages/plugin/src/live/session/session.ts:126-128 | A session at rest has no update, seed, subscription or rotation on its socket and no echo or State under way to it |
| `Flights.AckedTracked` | packages/plugin/src/live/session/session.ts:373-385 | Echoes come back in the order of their counters, and the last update sent waits until its own: reading one keeps that |
| `AnyFrames.HandleHolds` | packages/plugin/src/live/session/session.ts:272-385 | Whatever frame of the log is read, whoever it was meant for, nothing outstanding is left without a timer and the session stands where it stood or where the frame says |
| `Reopenings.ReopenedExactly` | packages/plugin/src/live/session/session.ts:185-189 | Reading any frames of the room's log, whoever they were meant for, a fresh session's document stays the log up to `seq` plus its own edits, whatever its disk holds, if and only if each tells it all it moves it past |
| `Reopenings.ReopeningExactly` | packages/plugin/src/live/workspace/room.ts:89-110 | So for what is owed on the socket of any closed session, in every world a heeding run reaches |
| `Reopenings.ReopeningStrays` | packages/plugin/src/live/session/closing.ts:1-13 | Where every logged update tells something new: if and only if none of those frames is an Echo, or a State that lacks the start of the log |
| `ReopenRuns.ReopenedOnPart` | packages/plugin/src/live/session/session.ts:293-330 | A run in which a reopened note joins on a State asked for from 1: it is settled at 2 without the first update, and has that agreed |
| `ReopenRuns.ReopenedOnEcho` | packages/plugin/src/live/session/session.ts:373-409 | A run in which a reopened note reads an Echo of the session closed: it is settled at the head with no text, has that agreed, and the room's stored log is empty |
| `Deliveries.ResendGetsThrough` | packages/plugin/src/live/session/outbox.ts:122-130 | In every world a heeding run reaches, a due timeout of a joined follower with an empty socket, its frame received and everything under way read, no refusal among it: each edit that waited is in the log, the session waits on none of them, and stands at the head with the whole log |
| `Deliveries.ResentIsLogged` | packages/relay/src/hub/docs.ts:112-119 | Once received, the resend is the log's next entry, holds every edit that waited and nothing else, and its Echo is the last frame under way |
| `Deliveries.FrontIsLogged` | packages/relay/src/hub/docs.ts:108-119 | The oldest frame of a follower's socket, if an update in a room that has not moved on a socket that may write, is the log's next entry |
| `Deliveries.TimeoutShips` | packages/plugin/src/live/session/outbox.ts:122-130 | A due timeout, online and not closed, puts one more frame on the socket: an Update of exactly what was unacked, under a counter past all earlier ones, which is all that waits then |
| `Deliveries.TimerResends` | packages/plugin/src/live/session/outbox.ts:62-69 | So does the timer that ran out on an unanswered update |
| `Deliveries.FlushShips` | packages/plugin/src/live/session/outbox.ts:116-119 | A due flush puts exactly what was pending on the socket and lets it wait behind what did; offline it is only numbered |
| `Deliveries.FlushBringsAll` | packages/plugin/src/live/session/outbox.ts:110-120 | The flush timer brings all that was staged or pending to the socket, as one update |
| `Deliveries.OnlineShips` | packages/plugin/src/live/session/session.ts:350-356 | Going online puts exactly what was unacked on the new socket, and nothing where nothing was |
| `Deliveries.StateShips` | packages/plugin/src/live/session/session.ts:326-328 | The first State a socket brings a joined session does so |
| `Deliveries.EchoShips` | packages/plugin/src/live/session/session.ts:373-377 | The Echo of a later update puts exactly what was sent before it on the socket again; what was sent after it waits on |
| `Deliveries.EditsWait` | packages/plugin/src/live/session/session.ts:154-156 | An edit typed is in the document and pending, one staged is staged, with the flush timer armed |
| `Deliveries.AbsorbedWaits` | packages/plugin/src/live/session/session.ts:147-152 | A version folded in from outside is in the document and pending, after what was staged |
| `Deliveries.SeedGoesOut` | packages/plugin/src/live/session/session.ts:229-238 | A State of an empty room makes a session that has not joined send the disk's text as Seed 0, and join nothing yet |
| `Deliveries.SeedJoins` | packages/plugin/src/live/session/session.ts:378-383 | The Echo of its seed makes it join with that text, online |
| `Deliveries.StateJoins` | packages/plugin/src/live/session/session.ts:332-343 | A State of a room with a log makes it join with the room's edits and, pending, what the merge of the disk made; no seed is left |
| `Deliveries.SocketAsks` | packages/plugin/src/live/session/session.ts:176-184 | A new socket carries one frame, a subscription from where the session stands |
| `Deliveries.LeaderCompacts` | packages/plugin/src/live/session/session.ts:391-409 | Settled, online and 200 past the last snapshot, the leader sends one of its whole document up to its `seq`; another session sends none |
| `Deliveries.SettledReports` | packages/plugin/src/live/session/session.ts:391-393 | A settled session reports its document as the room's at its `seq`, any other reports and changes nothing |
| `Deliveries.RotationGoesOut` | packages/plugin/src/live/session/rotation.ts:49-64 | A rotation is sent by a settled, online session with none out, with its whole document up to its `seq`; otherwise nothing happens |
| `Deliveries.ClosingShips` | packages/plugin/src/live/session/session.ts:193-211 | The last frame of a closed session is an Unsub, and online the one before it carries exactly what was staged and pending |
| `Deliveries.LostGoesOffline` | packages/plugin/src/live/session/room-log.ts:20-24 | A State of a log by another name, or of one shorter than this device knew, takes the session offline; it reads none of it nor of what follows |
| `Deliveries.MovedIsKnown` | packages/plugin/src/live/session/session.ts:411-415 | A Moved frame gives the session its new document, and it is never settled here again |
| `Deliveries.RefusedHolds` | packages/plugin/src/live/session/session.ts:421-425 | A refused session keeps all it holds and sends no edit until a State brings it online |
| `Deliveries.ReadersChangeNothing` | packages/relay/src/hub/docs.ts:108-111 | Over any run in which the hub hears only read-only sockets, no log grows, no stored row changes and no pointer moves |
| `Links.ToldEchoOk` | packages/relay/src/hub/docs.ts:220-234 | Logging an update and echoing it keeps the sender's stream readable |
| `Links.ToldFanoutOk` | packages/relay/src/hub/docs.ts:232-233 | Logging an update and fanning it out keeps every other follower's stream readable |
| `Links.ToldStateOk` | packages/relay/src/hub/docs.ts:195-204 | A State answered now brings a session that asked from where it stands, or is already caught up, to the head |
| `Streams.StreamAppends` | packages/relay/src/hub/docs.ts:195-204 | A frame fit to follow the end of a stream extends it, and leads where reading it leads |
| `SessionProofs.HandleGood` | packages/plugin/src/live/session/session.ts:272-291 | Reading any frame fit to come next keeps the session's invariant, and moves its `seq` to what the frame says |
| `SessionProofs.OnStateGood` | packages/plugin/src/live/session/session.ts:298-343 | Reading a State leaves the document the room up to its head plus what is outstanding, joined or with a seed offered |
| `SessionProofs.OnFanoutGood` | packages/plugin/src/live/session/session.ts:358-371 | Reading a Fanout advances the document and `seq` by exactly that entry |
| `SessionProofs.OnEchoGood` | packages/plugin/src/live/session/session.ts:373-385 | Reading an Echo moves the acknowledged update from outstanding to room, puts what was dropped before it back on its way, or joins on the seed |
| `SessionProofs.FlushedGood` | packages/plugin/src/live/session/session.ts:439-443 | A flush keeps every edit pending or unacked: numbered and unacked before it is sent |
| `SessionProofs.TimedOutGood` | packages/plugin/src/live/session/outbox.ts:123-130 | A timeout loses none of what was unacked and keeps the session's invariant; that it sends it is `Deliveries.TimeoutShips` |
| `SessionProofs.GoOnlineGood` | packages/plugin/src/live/session/session.ts:351-356 | Going online resends whatever an earlier socket left unacked |
| `SessionProofs.SettleGood` | packages/plugin/src/live/session/session.ts:391-409 | What settling publishes as agreed, and any snapshot it sends, carries exactly the log up to the `seq` it names |
| `SessionProofs.AskRotationGood` | packages/plugin/src/live/session/rotation.ts:49-64 | Asking for a rotation keeps the session's invariant: the frame sent carries all of the log up to its `upto` |
| `LiveSessions.LiveSession.constructor` | packages/plugin/src/live/session/session.ts:67-104 | A new session subscribes from 0 when connected, and is the specification's |
| `LiveSessions.LiveSession.OnState` | packages/plugin/src/live/session/session.ts:298-330 | Leaves exactly the specification's state after a State: log lost, first join, seed offer, or going online and settling |
| `LiveSessions.LiveSession.OnFanout` | packages/plugin/src/live/session/session.ts:358-371 | Leaves exactly the specification's state after a Fanout; ignored before the join |
| `LiveSessions.LiveSession.OnEcho` | packages/plugin/src/live/session/session.ts:373-385 | Leaves exactly the specification's state after an Echo |
| `LiveSessions.LiveSession.Settle` | packages/plugin/src/live/session/session.ts:391-409 | Publishes and compacts exactly when the specification does |
| `LiveSessions.LiveSession.SendUpdate` | packages/plugin/src/live/session/session.ts:439-443 | Numbers the update before it is sent, and sends it only online |
| `LiveSessions.LiveSession.GoOnline` | packages/plugin/src/live/session/session.ts:351-356 | Online, with everything unacked merged into one new update |
| `LiveSessions.LiveSession.OfferSeed` | packages/plugin/src/live/session/session.ts:229-238 | Keeps the seed and sends it as update 0 |
| `LiveSessions.LiveSession.Handle` | packages/plugin/src/live/session/session.ts:272-291 | Dispatches every frame to the state the specification gives |
| `LiveSessions.LiveSession.DrainStaged` | packages/plugin/src/live/session/session.ts:158-160 | What is staged joins the document and waits to be flushed, as the specification says |
| `LiveSessions.LiveSession.Absorb` | packages/plugin/src/live/session/session.ts:148-152 | Drains before it folds in a version edited outside the room |
| `LiveSessions.LiveSession.Flush` | packages/plugin/src/live/session/outbox.ts:116-119 | A queued flush ships what is pending, or settles |
| `LiveSessions.LiveSession.OnConnectionChange` | packages/plugin/src/live/session/session.ts:176-184 | A socket change takes the session offline, ends a rotation and subscribes again from `seq` |
| `LiveSessions.LiveSession.Dispose` | packages/plugin/src/live/session/session.ts:193-211 | Drains, stops the timers, ships what is pending and unsubscribes |
| `Outboxes.AckKeeps` | packages/plugin/src/live/session/outbox.ts:71-92 | An acknowledgement gives up exactly the update it names: everything else stays unacked or is returned to go out again |
| `Outboxes.AckAt` | packages/plugin/src/live/session/outbox.ts:75-91 | Acknowledging the update at `k` keeps what was sent after it and returns, merged, what was sent before it |
| `Outboxes.AckValid` | packages/plugin/src/live/session/outbox.ts:71-92 | It keeps the counters ascending and invents no update |
| `Outboxes.AddUnackedKeeps` | packages/plugin/src/live/session/outbox.ts:62-69 | Numbering an update adds it to what is outstanding and keeps the counters ascending |
| `Outboxes.DrainedKeeps` | packages/plugin/src/live/session/outbox.ts:46-56 | Draining leaves nothing staged and adds exactly the staged edits |
| `Outboxes.TakePendingKeeps` | packages/plugin/src/live/session/outbox.ts:58-60 | Taking the pending edits loses none: what is taken and what is left are what there was |
| `Outboxes.TakeUnackedKeeps` | packages/plugin/src/live/session/outbox.ts:94-99 | Taking the unacked edits loses none |
| `Outboxes.Outbox.Ack` | packages/plugin/src/live/session/outbox.ts:75-92 | The loop over the map leaves exactly the specification's outbox and returns its merged resend |
| `Outboxes.Outbox.AddUnacked` | packages/plugin/src/live/session/outbox.ts:62-69 | Adds under the next counter, which it returns, and arms the timer |
| `Outboxes.Outbox.DrainStaged` | packages/plugin/src/live/session/outbox.ts:47-56 | Runs each drain once and returns their edits |
| `Outboxes.Outbox.TakePending` | packages/plugin/src/live/session/outbox.ts:58-60 | Empties the pending list and returns it merged, or nothing |
| `Outboxes.Outbox.TakeUnacked` | packages/plugin/src/live/session/outbox.ts:94-99 | Empties the map, stops the timer and returns it merged, or nothing |
| `Outboxes.Outbox.FireFlush` | packages/plugin/src/live/session/outbox.ts:110-120 | Drains, clears the timer and queues a flush |
| `Outboxes.Outbox.FireTimeout` | packages/plugin/src/live/session/outbox.ts:123-125 | Clears the timer and queues a resend |
| `Rows.AppendedRepresents` | packages/relay/src/hub/store.ts:122-144 | An append, to a row or to none, is the log with one more entry at a head one higher |
| `Rows.CompactedRepresents` | packages/relay/src/hub/store.ts:167-190 | A compaction whose payload holds the log up to its `upto`, or all of it where `upto` is past the head, still stands for the whole log; a stale or empty one changes nothing |
| `Rows.StoredIsAll` | packages/relay/src/hub/store.ts:146-165 | Snapshot and deltas together hold every entry of the log |
| `Rows.StateCatchesUp` | packages/relay/src/hub/store.ts:146-165 | For every `since`, `state(since)` turns log[1..since] into log[1..head] |
| `Rows.StateNamesSnapshot` | packages/relay/src/hub/store.ts:149-152 | From 0 or with a snapshot, the head less the deltas of a State is the `seq` its snapshot covers |
| `Rows.StateSendsNoMore` | packages/relay/src/hub/store.ts:146-165 | A State carries no delta the asker has, and the snapshot only where the deltas start past what the asker has |
| `Rows.SnapshotReplaces` | packages/relay/src/hub/store.ts:167-190 | A snapshot that reaches past the last takes its place and that of exactly the deltas up to it; any other changes nothing |
| `Rows.HeadIsLength` | packages/relay/src/hub/store.ts:192-209 | The head is the length of the log until a move empties it |
| `Stores.SqlDocStore.MovedTo` | packages/relay/src/hub/store.ts:45-65 | Answers what the table says, from the bounded cache or not |
| `Stores.SqlDocStore.Remember` | packages/relay/src/hub/store.ts:67-72 | Never more than 1024 answers, and every kept one is the table's |
| `Stores.SqlDocStore.Append` | packages/relay/src/hub/store.ts:113-115 | The key's row is the specification's appended row, every other row as it was; returns the new head |
| `Stores.SqlDocStore.Seed` | packages/relay/src/hub/store.ts:117-120 | Appends only where there is no row; else changes nothing |
| `Stores.SqlDocStore.State` | packages/relay/src/hub/store.ts:146-165 | Returns the specification's State, for every `since` |
| `Stores.SqlDocStore.Compact` | packages/relay/src/hub/store.ts:167-190 | The key's row is the compacted one, every other row as it was |
| `Stores.SqlDocStore.Rotate` | packages/relay/src/hub/store.ts:80-95 | Seeds the target and leaves the pointer, both or neither |
| `Stores.SqlDocStore.MarkMoved` | packages/relay/src/hub/store.ts:97-111 | The row is a pointer with no log, and the cache says so |
| `Stores.SqlDocStore.Purge` | packages/relay/src/hub/store.ts:74-78 | Rows of the channel go and no other |
| `CacheKeys.CacheKeyInjective` | packages/relay/src/hub/store.ts:30-31 | No two documents of any channels share a cache key |
| `HubDocuments.Documents.HandleFrame` | packages/relay/src/hub/docs.ts:84-89 | One frame leaves exactly the tables and every socket's letters and subscriptions that the pure answer gives, for this document and no other; what that answer is for readers, writers and movers is proved in `Answers` |
| `HubDocuments.Documents.OnSub` | packages/relay/src/hub/docs.ts:132-150 | Too long an id, moved, one too many, again, or new: each as the answer says |
| `HubDocuments.Documents.OnFollowed` | packages/relay/src/hub/docs.ts:91-130 | Unsubscribe, moved, presence, read-only refusal (`Answers.ReadersWriteNothing`) or a write (`Answers.WritersAreLogged`): each as the answer says |
| `HubDocuments.Documents.OnSeed` | packages/relay/src/hub/docs.ts:152-158 | Logs the seed of a room without a row; any other is answered the room |
| `HubDocuments.Documents.OnRotate` | packages/relay/src/hub/docs.ts:160-182 | Ill-addressed is ignored, refused is answered the room, taken is told to every follower |
| `HubDocuments.Documents.TellLogged` | packages/relay/src/hub/docs.ts:221-234 | The sender gets the echo by its own counter, every other follower the payload |
| `HubDocuments.Documents.ToFollowers` | packages/relay/src/hub/frames.ts:95-109 | Every follower but the sender gets the frame once, nobody else does |
| `Answers.ReadersWriteNothing` | packages/relay/src/hub/docs.ts:108-111 | Whatever a read-only socket sends, nothing is logged, seeded or stored; a write to a document it follows is answered with a ReadOnly refusal and nobody else hears of it |
| `Answers.WritersAreLogged` | packages/relay/src/hub/docs.ts:112-119 | An Update of a following writer in an unmoved document is always logged: the sender gets an Echo of its counter at the new head, every other follower the payload there |
| `Answers.FirstSeedIsLogged` | packages/relay/src/hub/docs.ts:152-158 | A writer's seed is logged so where the document has no row; where it has one, it is answered the room and changes nothing |
| `Answers.MovedTellsWhere` | packages/relay/src/hub/docs.ts:184-193 | A moved document answers every frame but an Unsub with its pointer's target and note, to the sender alone, and changes nothing |
| `Answers.MovesExactly` | packages/relay/src/hub/docs.ts:160-182 | A rotation is taken if and only if a following writer names another, not too long id with a short note, the log ends where it says, and the target has no row; every follower is told the target and note then |
| `Answers.RefusedMoverCatchesUp` | packages/relay/src/hub/docs.ts:173-177 | A rotation refused for the log or the target is answered with what the log holds past its `upto`; an ill-addressed one not at all |
| `Answers.SnapshotsCompact` | packages/relay/src/hub/docs.ts:123-125 | A following writer's snapshot replaces what it covers and nobody hears of it |
| `Answers.NewcomersFollow` | packages/relay/src/hub/docs.ts:132-150 | A subscription is answered with the State from `since` and, if new, announced to the others, unless the socket follows 64 documents: then it is refused |
| `Answers.PresenceGoesRound` | packages/relay/src/hub/docs.ts:97-107 | Presence and leaving reach every other follower and not the sender |
| `Answers.StrangersHearNothing` | packages/relay/src/hub/docs.ts:84-89 | Only followers and the sender are ever written to; a socket that does not follow changes nothing but by a subscription, and too long a document name is ignored |
| `Scripts.HunksFromChanges` | packages/plugin/src/sync/anchored-hunks.ts:69-93 | The hunks are, in order and a line apart, all the mismatches the edit script has, add and remove as many lines as it, and hold no line it keeps |
| `Scripts.MismatchesRebuild` | packages/plugin/src/sync/anchored-hunks.ts:5-9 | Replacing every mismatch's base lines by its lines turns the one text into the other |
| `Anchors.LongestIncreasing` | packages/plugin/src/sync/anchored-hunks.ts:139-158 | A chain of the pairs, rising in both coordinates, and no rising chain of them is longer |
| `Anchors.PlaceOf` | packages/plugin/src/sync/anchored-hunks.ts:144-150 | The binary search returns the first tail not below the line |
| `Anchors.UniquePositions` | packages/plugin/src/sync/anchored-hunks.ts:117-131 | Exactly the lines that occur once in the range, each where it occurs |
| `Anchors.AnchorChain` | packages/plugin/src/sync/anchored-hunks.ts:99-114 | A longest rising chain among all pairs of places of lines unique to both ranges |
| `Anchors.CommonEnds` | packages/plugin/src/sync/hunks.ts:216-231 | The longest shared start, and the longest shared end of what is left |
| `Anchors.Gap` | packages/plugin/src/sync/anchored-hunks.ts:32-50 | A gap's hunks are its mismatches, from the exact differ or, past its budget, as one |
| `Anchors.AnchoredHunks` | packages/plugin/src/sync/anchored-hunks.ts:15-66 | The hunks are mismatches of the two texts that rebuild one from the other; no anchor of the longest chain is inside one |
| `Regions.ThreeWayRegions` | packages/plugin/src/sync/merge-model.ts:114-168 | In both grouping modes: regions ordered and apart, lines between them equal on all three sides, an unchanged side equal to the base there, each side's mismatches grouped once, whether exact or anchored; every hunk of a group but the first meets one before it, and the first of a group meets none of the group before |
| `Regions.TakeGroup` | packages/plugin/src/sync/merge-model.ts:128-137 | One group is a maximal stretch of hunks that each meet one before them: share base lines with it, insert at its point or, where touching counts, reach its end |
| `Regions.TakeRegion` | packages/plugin/src/sync/merge-model.ts:138-152 | A region's range on a side holds that side's own hunks and as many lines around them as the base has |
| `Regions.SideHunks` | packages/plugin/src/sync/merge-model.ts:419-430 | A side's hunks are all its mismatches, from the exact differ or the anchored fallback |
| `Regions.OfSideMerged` | packages/plugin/src/sync/merge-model.ts:120-123 | Both sides' hunks are all in the one list, each side's own in their order |
| `Regions.MergedSorted` | packages/plugin/src/sync/merge-model.ts:120-123 | Both sides' hunks in one list are ordered by base start |
| `MergeHunks.OwnRegion` | packages/plugin/src/sync/merge-model.ts:114-179 | In both grouping modes: a hunk is a region of its own, which its side alone changed, if and only if it clashes with no hunk of the other side, so hunks that only meet stay apart where touching does not count |
| `MergeHunks.ClashTogether` | packages/plugin/src/sync/merge-model.ts:170-179 | Two hunks of the two sides that clash are in one region |
| `MergeHunks.NotAlone` | packages/plugin/src/sync/merge-model.ts:170-179 | In a region of more than one hunk, each clashes with one of the other side in it |
| `MergeHunks.ClashSwaps` | packages/plugin/src/sync/merge-model.ts:120-123 | Swapping the sides changes what clashes at one place alone: where one side inserts right above the line the other changed, and touching does not count |
| `MergeText.SideRebuilt` | packages/plugin/src/sync/merge-model.ts:114-168 | Substituting a side's range in every region rebuilds exactly that side |
| `MergeText.UnchangedIsBase` | packages/plugin/src/sync/merge-model.ts:138-143 | Where a side did not change, its lines are the base's |
| `MergeText.KeepBoth` | packages/plugin/src/live/text/merge.ts:36-43 | Shared ends once, the room's middle, then this device's |
| `MergeText.BothKept` | packages/plugin/src/live/text/merge.ts:36-43 | Both sides' lines are in a kept conflict, each in its order |
| `MergeText.BothEnds` | packages/plugin/src/live/text/merge.ts:36-43 | What is kept starts and ends as both sides do |
| `MergeText.MergeLines` | packages/plugin/src/live/text/merge.ts:16-31 | Each region comes out as the side that changed alone, as either where both agree, or as both |
| `MergeText.MergeThreeWay` | packages/plugin/src/live/text/merge.ts:8-33 | An unchanged side returns the other text; else the merge of regions that decompose the three texts, from the hunks of both scripts |
| `MergeText.NoLocalChange` | packages/plugin/src/live/text/merge.ts:13-25 | With no region changed here, the merge is the room |
| `MergeText.NoRemoteChange` | packages/plugin/src/live/text/merge.ts:14-27 | With no region changed there, the merge is this device's text |
| `MergeText.NoEditLost` | packages/plugin/src/live/text/merge.ts:8-33 | Every line of every region a side changed is in the merge in that side's order, for both sides |
| `MergeHunks.UndisputedIsTaken` | packages/plugin/src/live/text/merge.ts:20-31 | A change of either side comes out where it was made, as that side wrote it and as a region of its own, if and only if it clashes with none of the other side's |
| `MergeAbove.InsertedAbove` | packages/plugin/src/live/text/merge.ts:20-31 | Of the base "a", this device's "A" and the room's "X" above "a" the merge is X, a, A; with the devices swapped it is X, A |
| `Texts.JoinSplit` | packages/plugin/src/sync/merge-model.ts:187-189 | Joining what was split gives the text back, final newline included |
| `Texts.SplitJoin` | packages/plugin/src/sync/merge-model.ts:236-236 | Splitting joined lines gives the lines back |
| `Texts.ConcatTokens` | packages/plugin/src/sync/hunks.ts:267-269 | A text is its lines with their terminators, the last with or without one |
| `Texts.TokensAreLines` | packages/plugin/src/sync/hunks.ts:267-269 | Each of them is one line: it is not empty, has no newline but at its end, and only the last can lack one |
| `Texts.ToLfHasNoCr` | packages/plugin/src/sync/hunks.ts:148-149 | A normalized text has no carriage return |
| `Texts.ToLfBreak` | packages/plugin/src/utils/eol.ts:5-7 | Every CRLF, lone CR or LF becomes exactly one newline, and nothing else of the text changes |
| `Texts.LinesBreak` | packages/plugin/src/sync/merge-model.ts:439-441 | A text's lines are the pieces between its line breaks, however those are written |
| `MergeEdits.SpanCovers` | packages/plugin/src/sync/merge-model.ts:208-211 | The characters of a span are exactly the lines it names, with the newlines a replacement must take |
| `MergeEdits.SnapKeeps` | packages/plugin/src/sync/merge-model.ts:253-269 | Snapping a span that covers whole lines leaves it |
| `MergeEdits.ReplaceSplices` | packages/plugin/src/sync/merge-model.ts:378-408 | Replacing whole lines by whole lines gives the text of the new lines, at the end of the file with and without a final newline, and returns their span |
| `MergeSessions.BuildMergeSession` | packages/plugin/src/sync/merge-model.ts:182-250 | The text is every region's first lines in the base's, and every change's span covers exactly its region's lines |
| `MergeSessions.FreshIsOk` | packages/plugin/src/sync/merge-model.ts:182-250 | Every change of a fresh session satisfies what the clicks rely on |
| `MergeSessions.FreshShows` | packages/plugin/src/sync/merge-model.ts:195-231 | A fresh change is no conflict if and only if one side alone changed or both hold the same lines: those lines stand there, applied on every side that changed; a conflict shows the base's and is open on both |
| `MergeChoices.ApplyKeeps` | packages/plugin/src/sync/merge-model.ts:272-317 | With the other side not in, applying a side puts exactly its lines in the change's place, and nothing else moves |
| `MergeChoices.RevertKeeps` | packages/plugin/src/sync/merge-model.ts:320-376 | Reverting the only applied side puts the base lines there |
| `MergeChoices.SharedKeeps` | packages/plugin/src/sync/merge-model.ts:282-293 | A change both sides made alike shows the same lines whichever of them is in |
| `MergeChoices.ClickKeeps` | packages/plugin/src/sync/merge-model.ts:272-376 | Every click offered (not taking both sides of a conflict) leaves the text, the span and the taken spans saying what the status does |
| `MergeChoices.RunKeeps` | packages/plugin/src/sync/merge-model.ts:272-376 | So does every run of such clicks |
| `MergeChoices.RevertUndoesApply` | packages/plugin/src/sync/merge-model.ts:320-376 | Applying a side and reverting it at once restores the text byte for byte |
| `MergeChoices.TakesSide` | packages/plugin/src/ui/diff/merge-editor.ts:377-389 | An open or ignored side the other does not keep out can be taken: its lines stand there, and it can be reverted |
| `MergeChoices.DropsSide` | packages/plugin/src/ui/diff/merge-editor.ts:391-402 | A side that is in alone can be reverted: the base's lines stand there, and it can be taken again |
| `MergeStacks.AppendSecond` | packages/plugin/src/sync/merge-model.ts:295-316 | Taking a conflict's second side puts its lines below the first's, and each side's span covers its own lines; the change's span covers both exactly unless the first side is empty at the end of the file and the second is not |
| `MergeStacks.RevertOne` | packages/plugin/src/sync/merge-model.ts:319-376 | With both sides of a conflict in, reverting one leaves exactly the other's lines, if and only if it is not the first one at the end of the file with an empty last line, or with only an empty line below it |
| `MergeStacks.RevertBoth` | packages/plugin/src/sync/merge-model.ts:272-376 | Taking both sides of any conflict in either order and reverting both in either order gives the text back if and only if the order is not the one `LosesLine` tells; there the line above the conflict is gone |
| `MergeExamples.LastLineConflict` | packages/plugin/src/sync/merge-model.ts:182-250 | Three texts whose scripts keep all but the base's last line make a session of one conflict over that line |
| `MergeExamples.SecondRevertLosesLine` | packages/plugin/src/sync/merge-model.ts:347-375 | The session made of three texts, where this side removed the last line and the other changed it: four clicks lose the line above |
| `MergeExamples.SecondRevertLosesBlank` | packages/plugin/src/sync/merge-model.ts:378-408 | The session made of three texts, where below an empty line this side changed the last line and the other emptied it: four clicks lose the empty line above |
| `PatchHunks.HunkSegments` | packages/plugin/src/sync/hunks.ts:52-93 | The segments are the maximal runs of changed lines, with the left and right lines each stands for; a marker opens and closes none |
| `PatchHunks.PickLines` | packages/plugin/src/sync/hunks.ts:188-205 | What a hunk leaves is its kept lines and, run by run, the side chosen, terminators included |
| `PatchHunks.ApplyHunks` | packages/plugin/src/sync/hunks.ts:173-213 | The text is the left's lines outside the hunks and what each hunk leaves, in order |
| `PatchSplice.ApplyIsSplice` | packages/plugin/src/sync/hunks.ts:173-213 | For any selection: the left text with exactly the selected segments' left ranges replaced by their right ranges |
| `PatchHunks.NothingSelected` | packages/plugin/src/sync/hunks.ts:173-213 | Nothing selected gives the left text |
| `PatchHunks.EverythingSelected` | packages/plugin/src/sync/hunks.ts:173-213 | Everything selected gives the right text, its final newline or the lack of it included |
| `PatchOps.RunsAreRuns` | packages/plugin/src/sync/hunks.ts:57-91 | Runs are maximal, in order, apart and take every changed line |
| `PatchOps.WrittenReads` | packages/plugin/src/sync/hunks.ts:258-264 | A line as a hunk writes it reads back as its token |
| `PatchCompute.ReplacedBlock` | packages/plugin/src/sync/hunks.ts:237-256 | The fallback hunk is a valid patch of the two texts |
| `PatchCompute.ComputeHunks` | packages/plugin/src/sync/hunks.ts:147-170 | Within budget or past it, the annotated hunks are a valid patch of the two texts, numbered from 0 |
| `PatchCompute.AnnotateHunk` | packages/plugin/src/sync/hunks.ts:271-296 | Counts the lines added and removed, and classifies by them |
| `PatchCompute.SidesCounted` | packages/plugin/src/sync/hunks.ts:279-283 | A hunk's side lengths are its kept lines and its own changed ones |
| `PatchCompute.KindTells` | packages/plugin/src/sync/hunks.ts:298-302 | A hunk only adds, or only removes, if and only if every changed line of it does, and there is one |
| `PatchCompute.WholeHunks` | packages/plugin/src/sync/hunks.ts:96-102 | For any hunks, under the number of each every segment of the last with that number, and no other number; for all the hunks of a patch, everything |
| `PatchCompute.ComplementSelection` | packages/plugin/src/sync/hunks.ts:105-120 | Exactly the segments not selected; a hunk with none left is not in it |
| `PatchCompute.IsFullSelection` | packages/plugin/src/sync/hunks.ts:122-129 | True exactly when every segment of every hunk is selected |
| `PatchText.GroupParts` | packages/plugin/src/live/text/patch.ts:37-52 | The groups read as the parts do, on both texts, and keep what the script keeps but for its end |
| `PatchText.Fold` | packages/plugin/src/live/text/patch.ts:54-67 | Folding short anchors into the group before changes neither text, and folds nothing where all anchors are long or the groups edit less than three times |
| `PatchText.Edit` | packages/plugin/src/live/text/patch.ts:69-77 | The deletes and inserts turn the old groups' text into the new one in place: every code point a group keeps, and all before and after the groups, is the one that was there |
| `PatchText.PatchYText` | packages/plugin/src/live/text/patch.ts:22-78 | The shared text equals the target, for every valid script and past the budget; the longest common ends were not touched, nor what the script keeps but for anchors folded away |
| `PatchText.SharedText.Delete` | packages/plugin/src/live/text/patch.ts:73-73 | Every delete is of whole code points, in range |
| `PatchText.SharedText.Insert` | packages/plugin/src/live/text/patch.ts:74-74 | Every insert is at a code-point boundary, in range |
| `PatchText.LengthIsUnits` | packages/plugin/src/live/text/patch.ts:26-27 | Lengths and positions count UTF-16 units, two for a code point that takes a surrogate pair |
| `SyncDiff.SameContentIsEquivalence` | packages/plugin/src/sync/diff.ts:102-109 | Two entries are the same if and only if they hold one drawing's scene, one file's bytes, or nothing: an equivalence |
| `SyncDiff.ClassByContent` | packages/plugin/src/sync/diff.ts:57-91 | A path's class says exactly which of the three contents are one: both the baseline's, one of them, one another's, or none |
| `SyncDiff.KindTells` | packages/plugin/src/sync/diff.ts:111-121 | A change adds if and only if the baseline lacks the path, deletes if its own side lacks it, and is told by the side it happened on |
| `SyncDiff.DiffPaths` | packages/plugin/src/sync/diff.ts:46-91 | Every path looked at is in the list of its class once, with its kind and hashes, and no other path is in any |
| `SyncDiff.IsUnderUnreadableDir` | packages/plugin/src/sync/diff.ts:123-132 | True exactly for a path whose first segments are all of an entry's and that has more, or any path where an entry is the root |
| `SyncMoves.PairedOnce` | packages/plugin/src/sync/moves.ts:124-146 | Two pairs share a source or a target only if they are the same pair |
| `SyncMoves.NameIsLast` | packages/plugin/src/sync/moves.ts:194-196 | A file's name is the last segment of its path |
| `SyncMoves.NamesakesPair` | packages/plugin/src/sync/moves.ts:140-143 | Two files of one content and one name, alone with both on either side, are paired whatever else has the content |
| `SyncMoves.FolderRenamed` | packages/plugin/src/sync/moves.ts:123-146 | All files of one content in a folder, under the same names in another now, are all paired, each with its namesake |
| `SyncMoves.PairUp` | packages/plugin/src/sync/moves.ts:124-146 | Exactly the pairs of one content that is not empty: one to one, else by file name where that is one to one |
| `SyncMoves.PairGroup` | packages/plugin/src/sync/moves.ts:136-143 | Within one content, the pair or the named pairs |
| `SyncPairing.PairMoves` | packages/plugin/src/sync/moves.ts:25-77 | Exactly the moves of both sides are listed; a conflict a move crosses becomes what the move carries, and a local arrival is held back |
| `SyncPairing.Diff` | packages/plugin/src/sync/diff.ts:23-100 | The whole comparison: every path looked at in its list, and the moves paired across them |
| `SyncPairing.MovesApart` | packages/plugin/src/sync/moves.ts:124-146 | A move's target holds its baseline content, not empty, and two moves share no endpoint |
| `SyncPairing.MoveExactly` | packages/plugin/src/sync/moves.ts:25-60 | A move is exactly a file gone from one side that the other still has, and one new on that side alone with its old content, not empty, where no other file of that content is gone or new there, or none of the same last segment |
| `SyncPairing.LoneRenameIsMove` | packages/plugin/src/sync/moves.ts:123-139 | The one file of its content that is gone from a side, and the one that arrived there, are a move |
| `SyncPairing.OneListEach` | packages/plugin/src/sync/diff.ts:57-91 | After pairing, no path is in two of the lists |
| `SyncPairing.PairedEndpointsApart` | packages/plugin/src/sync/moves.ts:25-77 | All moves of both sides have pairwise distinct endpoints |
| `SyncPairing.WithMoves` | packages/plugin/src/sync/moves.ts:80-91 | The one pass takes in both paths of every move it touches |
| `SyncPairing.WidenedIsLeast` | packages/plugin/src/sync/moves.ts:80-91 | Its result is the least superset closed under the moves |
| `SyncEngine.BuildPartialFileMap` | packages/plugin/src/sync/engine.ts:393-411 | The head with exactly the pushed paths as on this disk |
| `SyncEngine.AdvanceBaselineForPaths` | packages/plugin/src/sync/baseline.ts:54-74 | The baseline with exactly these paths as published |
| `SyncEngine.PublishedDelta` | packages/plugin/src/sync/baseline.ts:104-117 | Exactly the paths whose content differs between the two |
| `SyncEngine.DeltaOfOverlay` | packages/plugin/src/sync/baseline.ts:104-117 | What a push published differs from the head only at pushed paths |
| `SyncPull.PullMoves` | packages/plugin/src/sync/pull-moves.ts:26-59 | Exactly the asked moves with something to do, each landed on its own or waiting, and the paths written |
| `SyncPull.MovesLand` | packages/plugin/src/sync/pull-moves.ts:39-57 | Every move lands as if it were the only one, whatever the others do |
| `SyncPull.PullPaths` | packages/plugin/src/sync/engine.ts:203-298 | The disk, the paths written and the baseline a pull leaves, however far it got |
| `SyncPull.PulledAt` | packages/plugin/src/sync/engine.ts:216-279 | Outside the moves, a path changes only if asked for, reached and still as compared |
| `SyncPull.PulledMove` | packages/plugin/src/sync/pull-moves.ts:39-57 | What a landed move leaves at both its paths, and a waiting one |
| `SyncRuns.DoOk` | packages/plugin/src/sync/engine.ts:132-298 | Every step of several devices over one head keeps what baselines and kept compares say |
| `SyncRuns.RunOk` | packages/plugin/src/sync/engine.ts:132-298 | So does every run |
| `SyncRuns.PushReplacesOnlyKnown` | packages/plugin/src/sync/engine.ts:132-193 | Over every run, a push replaces the head's version of a path only if it was asked for, the pusher's baseline holds that content and it once had it on disk |
| `SyncRuns.PullReplacesOnlyBaseline` | packages/plugin/src/sync/engine.ts:203-298 | Over every run, outside asked moves a pull changes a disk file only if asked for and it holds what the baseline does |
| `SyncRuns.MovesOverwriteNothing` | packages/plugin/src/sync/pull-moves.ts:39-57 | Over every run, an asked move overwrites only the content the file had before it moved, and the file is never in neither place |
| `SyncRuns.PullKeepsOthers` | packages/plugin/src/sync/baseline.ts:54-74 | Over every run, a pull leaves the standing of every path it was asked neither to write nor to move |
| `SyncRuns.PushKeepsOthers` | packages/plugin/src/sync/baseline.ts:104-117 | A published push leaves the standing of a path it was not asked for if and only if the head had not vanished or the baseline lacks the path |
| `SyncProgress.PushGoesThrough` | packages/plugin/src/sync/engine.ts:185-192 | Over every run, a push goes through if and only if the head is still the one compared with; otherwise nothing at all changes |
| `SyncProgress.PushedExactly` | packages/plugin/src/sync/engine.ts:140-143 | Pushed are exactly the local changes asked for that no move holds back |
| `SyncProgress.AskedIsPushed` | packages/plugin/src/sync/engine.ts:132-193 | Over every run, such a change is on the head after the push, and in this device's baseline, as compared |
| `SyncProgress.AskedIsPulled` | packages/plugin/src/sync/engine.ts:203-298 | Over every run, a remote change asked for and reached is on the disk and in the baseline after the pull, where the file still was as compared and no move has it |
| `SyncProgress.AskedExactly` | packages/plugin/src/sync/pull-moves.ts:26-38 | A pull takes a move it was asked for by either path if and only if the other device made it, or this device did and the other edited the file |
| `SyncProgress.AgreedIsAdopted` | packages/plugin/src/sync/runtime/operation-runner.ts:194-203 | Over every run, what both sides brought to one content is adopted by the compare that finds it, and no change any more |
| `SyncRuns.RemoteRenameKeepsEdit` | packages/plugin/src/sync/pull-moves.ts:42-44 | A remote rename crossing a local edit: after the pull no conflict, and the local edit is at the new path |
| `SyncRuns.LocalRenameTakesEdit` | packages/plugin/src/sync/pull-moves.ts:45-55 | A local rename crossing a remote edit: after the pull the remote text is at the new path, with the rename left to push |
| `SyncPlaces.PlaceIsList` | packages/plugin/src/sync/moves.ts:25-77 | The place of a path, a function of the three sides and the candidates for moves, is the one list a compare has it in after pairing |
| `SyncPlaces.PlaceKept` | packages/plugin/src/sync/moves.ts:25-77 | When other paths change, a path keeps its class, and keeps its list if and only if it pairs as before |
| `SyncStanding.PushMovesExactly` | packages/plugin/src/sync/moves.ts:124-146 | Over every run, the moves a compare after a push pairs are exactly those that pair once the pushed paths are no candidates of this side |
| `SyncStanding.PushKeepsPlaces` | packages/plugin/src/sync/engine.ts:132-193 | Over every run, a published push leaves a path it was not asked for in its list if and only if, without the pushed candidates, it pairs as it did or, with the head vanished, the baseline lacks it |
| `SyncStanding.PushSparesPlaces` | packages/plugin/src/sync/moves.ts:124-146 | Over every run, a path keeps its list if no pushed path holds, here or in the baseline, the content it would pair by |
| `SyncStanding.PullKeepsPlaces` | packages/plugin/src/sync/engine.ts:203-298 | Over every run, a pull leaves a path it was asked neither to write nor to move in its list if and only if it pairs as before among what the written paths leave |
| `SyncStanding.PullLeavesRenames` | packages/plugin/src/sync/baseline.ts:54-74 | What the written paths leave: no conflict and no candidate but the two ends of local renames that took the other side's text in |
| `SyncExamples.PairingCanResolve` | packages/plugin/src/sync/moves.ts:124-146 | A run from scratch of two devices, one editing a shared note and the other replacing it by two copies: the push of one copy turns the conflict on the note into a move |
| `SyncExamples.VanishedHeadRereads` | packages/plugin/src/sync/baseline.ts:104-117 | A run from scratch, a push, the loss of the head, and a push of another path, after which the first path reads as deleted elsewhere |
| `SyncRuns.PushPaths` | packages/plugin/src/sync/engine.ts:132-193 | The published head and the baseline a push leads to, or nothing at all when the head moved |
| `SpaceRecords.NewerIsOrder` | packages/plugin/src/spaces/record.ts:57-59 | Newer is a strict order, total up to the pair of revision and author |
| `SpaceRecords.BeforeIs` | packages/plugin/src/spaces/record.ts:57-59 | One author or id comes before another where it has the lower character at the first place they differ, or ends there |
| `SpaceRecords.CloseOutranks` | packages/plugin/src/spaces/record.ts:65-67 | A close outranks a chain of unseen edits if and only if the chain is shorter than a million, or ties it with an author before the closer's |
| `SpaceRecords.JoinIdempotent` | packages/plugin/src/spaces/record.ts:85-94 | Merging a list with itself changes nothing |
| `SpaceRecords.JoinCommutes` | packages/plugin/src/spaces/record.ts:85-94 | Where (rev, author) names a revision, the order of two lists does not matter |
| `SpaceRecords.JoinAssociates` | packages/plugin/src/spaces/record.ts:85-94 | Nor does how three are grouped |
| `SpaceRecords.NewestConcat` | packages/plugin/src/spaces/record.ts:85-94 | Merging lists at once is merging them one by one |
| `SpaceRecords.NewestIs` | packages/plugin/src/spaces/record.ts:88-92 | Each id once, a record of the lists that none of them outranks |
| `SpaceRecords.MergeRecords` | packages/plugin/src/spaces/record.ts:85-94 | The loop and the sort give exactly that, ordered by id |
| `RecordTrades.RecordStore.SyncRecords` | packages/plugin/src/spaces/remote.ts:33-73 | The store and the device both end with the join of what each had, which is one step of `Trade` for a device that knows the vault; unreadable records stay |
| `RecordTrades.RecordStore.Publish` | packages/plugin/src/spaces/remote.ts:57-71 | Writes exactly the records that outrank the store's |
| `RecordTrades.AdmittedWins` | packages/plugin/src/spaces/remote.ts:46-56 | After the first trade of a device that did not know the vault, a share of the vault's owner is the owner's, a share joined here is joined whatever close the vault holds, and else the newer record stays |
| `RecordTrades.TradesConverge` | packages/plugin/src/spaces/remote.ts:33-73 | In any order of trades, once every device has traded and then traded again, all hold the join of everything there was of every id all can read; a device keeps its own record of an id it cannot read |
| `RecordTrades.WorkingCopy.Add` | packages/plugin/src/spaces/records.ts:94-97 | The list with the record in, if it is newer |
| `RecordTrades.WorkingCopy.Close` | packages/plugin/src/spaces/records.ts:100-106 | An open record is closed a million revisions on; a closed or missing one stays |
| `RecordTrades.WorkingCopy.MoveRoot` | packages/plugin/src/spaces/records.ts:109-115 | A new root is one revision on; the same root only settles here |
| `Partition.SpacesOf` | packages/plugin/src/spaces/partition.ts:11-30 | The vault, then by id the open records whose root is free, each under its id and root, read-only exactly where its participant may only read and paused where this device paused it |
| `Partition.PartitionIsOk` | packages/plugin/src/spaces/partition.ts:6-10 | No root's segments are the first segments of another's, and none is the vault or has a segment that starts with a dot |
| `Partition.OpenIsHeld` | packages/plugin/src/spaces/partition.ts:6-10 | An open record is mounted, or its root is empty or hidden, or a smaller id's root is a folder on the way to it or inside it, segment by segment |
| `Partition.ClosedIsUnmounted` | packages/plugin/src/spaces/record.ts:64-67 | A share that is closed is mounted on no device |
| `Partition.UnderIsInside` | packages/plugin/src/sync/space.ts:54-57 | A path is under a root if and only if the root is empty or its segments are the first segments of the path |
| `Partition.DotSegmentHides` | packages/plugin/src/shared/path.ts:9-12 | A path is hidden if and only if one of its segments starts with a dot |
| `Paths.InsideIs` | packages/plugin/src/sync/space.ts:54-57 | Sharing the first segments is being the root, or the root, a slash and more |
| `Partition.SameRecordsSamePartition` | packages/plugin/src/spaces/partition.ts:11-30 | Two devices with equal records mount the same spaces at the same roots, in whatever order they list them and whichever each has paused |
| `Partition.SpaceOf` | packages/plugin/src/sync/space.ts:20-29 | A space whose root's segments start the path's, and every root that does so starts the owner's; the vault where there is none |
| `Partition.OwnedByIs` | packages/plugin/src/vault/scope.ts:160-166 | A share's scope owns exactly the paths that have its root's segments first and more after them, the vault's what no share holds |
| `Partition.OwnedOnce` | packages/plugin/src/vault/scope.ts:160-166 | Each path that is no root is owned by exactly one space, the one `spaceOf` names |
| `Partition.RootsOwnedByNone` | packages/plugin/src/vault/scope.ts:159-166 | A root is owned by no space |
| `CodecProofs.ClientRoundTrip` | packages/protocol/src/codec.ts:31-64 | Decoding undoes encoding of a client frame if and only if its counters and lengths fit four octets |
| `CodecProofs.ServerRoundTrip` | packages/protocol/src/codec.ts:66-126 | Decoding undoes encoding of a server frame if and only if counters and lengths fit, a snapshot is not empty and a known reason goes by its name |
| `CodecProofs.ClientReencodes` | packages/protocol/src/codec.ts:167-184 | A client frame that decodes encodes to a prefix of the bytes it came from |
| `CodecProofs.ServerReencodes` | packages/protocol/src/codec.ts:167-184 | So does a server frame, save a State without its log, which is then the whole of its bytes |
| `CodecProofs.CutStateDecodes` | packages/protocol/src/codec.ts:77-89 | A State cut before its log reads as log "" |
| `CodecProofs.ReaddressedIsEncoded` | packages/protocol/src/codec.ts:145-153 | Patching the slot of an encoded server frame is encoding it for that slot |
| `CodecProofs.ReaddressedIsEncodedForClient` | packages/protocol/src/codec.ts:145-153 | And of a client frame |
| `CodecLayout.ClientLaidOut` | packages/protocol/src/frames.ts:25-33 | Every frame a client sends is its type's octet (1 to 8), the slot, the document's length and UTF-8, and its fields in the order written, numbers as four octets that spell them |
| `CodecLayout.ServerLaidOut` | packages/protocol/src/frames.ts:34-45 | So is every frame the hub sends, types 16 to 25 and the signal's 7, a State's deltas one block each, in order |
| `CodecLayout.U32Spells` | packages/protocol/src/bytes.ts:20-24 | A number goes out with its highest octet first, modulo two to the 32nd |
| `Codec.WithSlot` | packages/protocol/src/codec.ts:145-153 | A fresh copy, the same but for the slot; unchanged where too short to have one |
| `CodecFrames.EncodeClientFrame` | packages/protocol/src/codec.ts:155-165 | The bytes written part by part are the encoding; none where a text is too long |
| `CodecFrames.EncodeServerFrame` | packages/protocol/src/codec.ts:155-165 | The same for server frames, State's loop included |
| `CodecFrames.DecodeClientFrame` | packages/protocol/src/codec.ts:167-184 | Reading any bytes stays in bounds and gives the frame they encode, or none |
| `CodecFrames.DecodeServerFrame` | packages/protocol/src/codec.ts:167-184 | The same for server frames, State's loop and optional log included |
| `CodecFrames.TakeBlocks` | packages/protocol/src/codec.ts:80-81 | The counted blocks, or none where one is cut |
| `Wire.U32Reads` | packages/protocol/src/bytes.ts:20-24 | Four octets read back as the number written |
| `Wire.U32Written` | packages/protocol/src/bytes.ts:72-76 | And are what the number read is written as |
| `Wire.BlockReads` | packages/protocol/src/bytes.ts:32-34 | A block reads back, whatever follows |
| `Wire.TextReads` | packages/protocol/src/bytes.ts:36-40 | A text reads back, whatever follows |
| `Wire.TextWritten` | packages/protocol/src/bytes.ts:82-84 | A text read is written as the bytes it came from |
| `Wire.Writer.Finish` | packages/protocol/src/bytes.ts:42-50 | One buffer with all parts in order |
| `Wire.Writer.PutText` | packages/protocol/src/bytes.ts:36-40 | Refused past 255 bytes, else its length and its bytes |
| `Wire.Reader.TakeU32` | packages/protocol/src/bytes.ts:72-76 | The next four octets as a number, or none where they are not there |
| `Wire.Reader.Take` | packages/protocol/src/bytes.ts:95-101 | The next bytes, never past the end |
| `Wire.Reader.TakeBlock` | packages/protocol/src/bytes.ts:78-80 | A length and as many bytes |
| `Wire.Reader.TakeText` | packages/protocol/src/bytes.ts:82-84 | A length byte and as many bytes, if they are UTF-8 |
| `Buckets.PassesExactly` | packages/relay/src/hub/limits.ts:51-63 | A bucket refuses a frame if and only if some window ending with it would overflow the envelope |
| `Buckets.WindowBounded` | packages/relay/src/hub/limits.ts:51-63 | No window lets through more than a burst and what its length refills |
| `Buckets.NeverRefused` | packages/relay/src/hub/limits.ts:51-63 | A sender is never refused if and only if all its windows stay inside the envelope |
| `Buckets.RefillPerSecond` | packages/relay/src/hub/limits.ts:57-59 | A thousand milliseconds refill the rate's tokens for one second |
| `Limits.EveryWindowBounded` | packages/relay/src/hub/limits.ts:23-49 | In every run, any window of T ms lets through at most 256 + 32 T / 1000 frames of a tag, and at most 40 + 20 T / 1000 of its read-only presence |
| `Limits.NeverLimitedExactly` | packages/relay/src/hub/limits.ts:27-43 | A socket just joined is never held back by the rate if and only if its windows stay inside the envelope, whatever others send |
| `Limits.AllowedExactly` | packages/relay/src/hub/limits.ts:27-43 | Which frames of a socket just joined get through: if and only if its rate has room and, under a read-only grant, it is no signal and, if presence, is at most 4 KiB and has room in the tighter rate |
| `Limits.RunSplits` | packages/relay/src/hub/limits.ts:23-49 | A window of a run is a run of its own from the state it starts in |
| `Limits.FrameLimits.Allows` | packages/relay/src/hub/limits.ts:28-43 | Changes both buckets, and answers, exactly as the specification |
| `Limits.FrameLimits.Forget` | packages/relay/src/hub/limits.ts:45-48 | Both buckets of the tag go, no other changes |

## Left out

- LiveRuns.NeverLost: covers runs without log loss; moving on from a lost or regrown log replaces history on purpose, so `moveOn` is followed only up to going offline.
- LiveRuns.SessionIsRoom: a frame still in a session's queue when it is closed counts as not read, so what is said of a closed session is said of it as it was when it closed; the source still handles such a frame, skipping a Fanout (session.ts:358-371) while a later Echo moves `seq` (session.ts:374).
- LiveRuns.CaughtUp: an update is a set of edits; Yjs's own merging, text order and snapshots are not modelled, and a rotation's rebuild carries the same edits.
- LiveSessions.LiveSession.Handle: presence frames change nothing here; awareness, cursors, attribution and the choice of a leader are one boolean a step is given.
- SessionProofs.OnStateGood: every frame unseals; sealing, `unreadable` rooms and their refusal are not modelled.
- Outboxes.Outbox.FireFlush: timers fire in any order at any time; the delays in milliseconds are not modelled, and a drain never throws.
- HubDocuments.Documents.HandleFrame: a socket has one grant of one channel, so slots, several channels on a socket and `HubCore`'s join, leave, drop and channel frames are not modelled.
- Rooms.WithFrameOk: a frame past the size limit never comes, since a session refuses to send one.
- WorldProofs.DoOk: queued steps of one session run one at a time and whole; an await inside a step is not interleaved with others.
- Stores.SqlDocStore.Append: the random name of a new log is a parameter, never empty.
- Read-only followers (`FollowerSession`) and drawings' own models are not modelled.
- Regions.ThreeWayRegions: jsdiff itself is not modelled, only that it returns a valid script or none.
- MergeChoices.ClickKeeps: taking both sides of a conflict is what `MergeStacks` is about; edits by hand and of other changes are not modelled.
- MergeStacks.RevertBoth: CodeMirror's `mapPos` is modelled for the one replacement a click makes, by its documented rule; clicks after a revert that `RevertOne` excludes are not followed.
- PatchText.PatchYText: Yjs's transaction is one step, and no other edit comes between.
- SyncPairing.Diff: file names are compared as they are; case-only renames on disks blind to case are not modelled.
- SyncPull.PullPaths: downloads and deletions that a cancellation skipped are a set of reached paths; open live notes, folders, file modes and modification times are not modelled.
- SyncRuns.PushPaths: uploads, history, attribution, live marks and empty folders do not take part.
- SyncRuns.Storage.PublishWithGuard: publishing is one atomic step; stale reads and a second writer between check and put are not modelled.
- SyncRuns.DoOk: the scope includes every path and reset generations do not change.
- SyncEngine.AdvanceBaselineForPaths: the folder lists of a manifest (`majorityFolders`, `mergeFolderArrays`) are not modelled.
- RecordTrades.TradesConverge: each trade is one atomic step by a device that knows the vault, and which ids a device can read does not change; `SyncRecords` covers a device not bound yet.
- RecordTrades.WorkingCopy.Add: renewing access, pausing, inviting, the vault a device is bound to and pending moves of folders are not modelled.
- SpaceRecords.NewerIsOrder: strings are ordered by character, not by UTF-16 unit.
- CodecProofs.ServerRoundTrip: UTF-8 (RFC 3629) is an inverse pair of total functions, not its bits.
- Limits.EveryWindowBounded: tokens are real numbers; floating-point rounding is not modelled.
- Storage adapters, encryption, the vault adapter, settings, the user interface and the share broker are not part of this model.
