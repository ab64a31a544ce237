# A verified model of the backup client and server

The repository is a Qt client and a C++ server that move files over plain TCP connections. An
upload or a download can be cut at any byte, by a pause, a cancel, a lost connection or a shutdown,
and is continued later from what is on disk. This project models that behaviour in Dafny and proves
what it guarantees; where the code does not keep a law, a lemma shows the case and another says
exactly when the law does hold.

`dafny verify dfyconfig.toml` checks everything.

## How it is built

**The protocol.** `Text`, `Sockets` and `WireFormat` hold decimal numbers, the send and line-reading
loops, the printed commands and replies, and their round trips. `UploadLink` and `DownloadLink` are
two-party machines of small steps: client phases, server phases, a byte queue in each direction, and
steps that move any number of bytes or break the connection at any moment. `UploadSafety` and
`DownloadSafety` prove what every step keeps, whatever the file on disk is; `UploadSessions` and
`DownloadSessions` add one file and compose any number of interrupted connections; `UploadProgress`
and `DownloadProgress` prove that runs end and that undisturbed ones end well; `SharedUpload` lets
any number of connections write the same file at once. `FilePutServer`, `FileSaveServer`,
`UploadWorker` and `DownloadWorker` are the loops as the programs run them, over sockets and files
that fail and deliver short reads and writes as they like; each is proved to take only steps of its
machine. `UploadEnds` and `DownloadEnds` put the two programs at the ends of a connection together:
where what arrives at one end is a front part of what the other has sent, the session theorems hold
of the programs themselves.

**Control and scheduling.** `ControlState` is the table of sockets, pauses and cancels, proved equal to
a function of the operation history; every look of a worker, every failed call on its socket and the
shutdown flag are operations of that history too. `TransferRun` is what a worker shares with other
threads, which act between any two of its looks at the table. `Dispatch` is the queue with its
processing flag as a machine of locked sections, and the methods that take its steps, again with other
threads in between.

**Stale results.** `LoadCoordinator`, `FileBrowser` and `DirectorySync` are three designs for throwing
away results that come too late. In each, requests, fetches and callbacks are separate steps that
happen in any order.

**Bookkeeping and paths.** `DirectoryListing` is the listing printed by one program and parsed by the
other. `PathNavigation` is parent paths and breadcrumbs, `FileNames` the name an upload is stored
under. `TaskManager`, `TaskRows` and `TaskModule` are the task maps, the task numbers, the progress
arithmetic and the rows of the two lists.

Machines are given by a datatype of states, a predicate `Enabled`, and a function for the state after
an action; a run is a sequence of states, or of actions, and theorems about runs hold at every state
of every run. Bytes are written as `char`. Numbers are unbounded; where 64 bits matter the limit is
written out (`LLONG_LIMIT`).

## Findings

- An upload never mixes bytes, however often it is resumed, as long as the client goes on at the offset
  that the server writes at. A READY line cut by the end of the connection does no harm; one cut by a
  receive timeout on a live connection makes the client go on at a smaller offset, and the server can
  answer OK. Its file is right exactly when the stretch of the source that was taken in equals the one
  that was asked for, so it is wrong for every source whose byte at the server's offset is found nowhere
  before it (`UploadEnds.UploadsTogether`, `UploadEnds.ContinuedExactlyWhen`,
  `UploadEnds.CutReadyOnOpenConnection`).
- Resuming goes by length alone: the result is the source exactly when the first partial file was a front
  part of it or was too long (`UploadSessions.CompletedUpload`, `DownloadSessions.CompletedDownload`).
- Overlapping sessions of one upload are safe exactly when the file on disk is a front part of the
  source that is not empty. When the server would truncate, a second session can empty the file after
  the first was answered OK (`SharedUpload.OverlapIsSafeExactlyWhen`, `SharedUpload.TruncatingOverlap`).
- A size reply that the end of the connection cuts short is taken for a smaller size, and an empty one,
  or the first letters of an error, for zero: the download is then reported Completed with a shortened
  or emptied file (`DownloadSessions.CompletedLengthIsRightExactlyWhen`, `DownloadEnds.CompletedTogether`).
- A worker that resumes a task goes on exactly when no request of the task is still recorded where it
  registers and nothing was asked, cleaned up or cleared since: one that is resumed before the paused
  worker has cleaned up reads Paused, and a late cleanup takes its socket out of reach
  (`ControlState.ResumedGoesOnExactlyWhen`, `ControlState.ResumedSocketHeldExactlyWhen`).
- A shutdown loses no request exactly when none was queued and no caller waited for the queue lock when
  the flag was set; a late caller can even leave a request in the emptied queue for good
  (`Dispatch.AllDispatchedExactlyWhen`, `Dispatch.LateRequestIsStranded`).
- A run that its loop halts, or whose send or receive fails, closes with the last request recorded when it
  last looked at its task, and that look lies behind the failed call: Failed only when nothing was asked
  by then (`UploadWorker.FileUploadResumable`, `DownloadWorker.FileDownloadResumable`). A request that
  comes while an upload waits for READY ends as Failed exactly when no digit of the offset has arrived or
  the file cannot be positioned, and one that comes while it waits for the final OK exactly when not both
  letters have. A download that is asked to stop before it begins ends as Failed exactly when the range
  could not be asked for and confirmed or the target not opened (`UploadWorker.RunRegistered`,
  `UploadWorker.RefusedExactlyWhen`, `DownloadWorker.RunRegistered`).
- Sync tokens tell restarts apart, not ticks. Lists are emitted in the order of their ticks when no timer
  fires while a worker of its token is under way; from every state with two fetches of a live token some
  run emits the older tick's list last (`DirectorySync.UnhurriedTicksComeInOrder`,
  `DirectorySync.OlderTickCanComeLast`).
- An error reply to a listing looks like an empty directory: it is told apart from the listing exactly
  when the directory is not empty (`DirectoryListing.ErrorIsToldApartExactlyWhen`).

## Model

| member | source | states |
|---|---|---|
| Sockets.SafeSend | server/server.cpp:42-53 | success means all bytes were handed over in order, failure that a call has failed with a proper front part of them handed over |
| Sockets.SendAll | src/core/network/TransferProtocolClient.cpp:74-86 | the same for the client's loop, no call of which is given more than 2^31-1 bytes |
| Sockets.SafeRecvLine | server/server.cpp:74-90 | the loop returns the line that `ServerLine` specifies and leaves exactly the bytes behind its newline |
| Sockets.ReceiveLine | src/core/network/TransferProtocolClient.cpp:88-103 | the client's loop returns the line, whole or cut by the end of the connection, and takes nothing behind it |
| Sockets.ServerReadsLine | server/server.cpp:74-90 | a clean line below 65536 bytes is read whole and the stream stands right behind its newline; a longer one is cut at 65536 |
| Sockets.ClientReadsLine | src/core/network/TransferProtocolClient.cpp:88-103 | a line without newline is read whole and the stream stands right behind it |
| Sockets.ServerLineIsClean | server/server.cpp:82-87 | no line the server returns holds a newline or carriage return |
| Text.ParseDecimal | server/server.cpp:139-147 | every number below 2^63 that one side prints is parsed to itself by the other, by `stoll` and by `toLongLong` |
| Text.ClientParsesExactlyWhen | src/core/network/TransferProtocolClient.cpp:154-174 | the client finds a number exactly in the texts that are one of 64 bits with a sign or none and blanks around it |
| Text.ServerParsesExactlyWhen | server/server.cpp:139-147 | the server finds a number exactly in the texts that are one of 64 bits, not negative, with a sign or none and blanks only in front |
| WireFormat.SplitTokens | server/server.cpp:30-38 | the token loop computes the split that the round trips are stated with |
| WireFormat.UploadCommandRoundTrip | src/core/network/TransferProtocolClient.cpp:131-138 | the server recovers every field of an upload command, and stops at its newline, exactly when the name has no separator or line end and the line is short enough |
| WireFormat.RangeCommandRoundTrip | src/core/network/TransferProtocolClient.cpp:145-152 | the same for the range command, in read-only mode too |
| WireFormat.SizeCommandRoundTrip | src/core/network/TransferProtocolClient.cpp:140-143 | the same for the size query, which also needs a name that is not empty |
| WireFormat.ListCommandRoundTrip | src/core/network/DirectoryService.cpp:75 | the same for the listing command, for every clean path, an empty one too |
| WireFormat.DispatchMeans | server/server.cpp:507-630 | for each command the parts of a line that ask for it, exactly; a server that only reads refuses every upload, createdir and deletefile |
| WireFormat.FieldsAreClean | server/server.cpp:507-590 | whatever bytes arrive, no text field of any command the server acts on holds a separator or line end |
| WireFormat.ReplyRoundTrip | src/core/network/TransferProtocolClient.cpp:154-174 | READY and OK offsets survive the way back and the client stops right behind the line |
| WireFormat.ErrorIsNoReply | src/core/network/TransferProtocolClient.cpp:154-174 | an error line that arrives whole is read as the word ERROR and parsed as neither of the two |
| WireFormat.CutReadyIsSmaller | src/core/network/TransferProtocolClient.cpp:154-163 | a READY line cut short never claims more than the server's offset, and the same only when no digit is missing |
| RequestPolicy.ClampUploadOffset | src/core/network/TransferRequestPolicy.h:36-39 | the requested offset itself exactly when it lies inside the file, otherwise the nearer end |
| UploadSafety.CommandUnderstood | server/server.cpp:527-555 | the line the client prints is dispatched to the upload handler with the fields it was printed from |
| UploadSafety.StepKeeps | server/server.cpp:243-361 | every step of either end, and every break, keeps the invariant of the connection: bytes in flight are the next bytes of the source and replies arrive in order |
| UploadSafety.OkMeansAnswered | src/core/network/TransferServiceFileTransfer.cpp:148-169 | a final line that begins with OK, whole or cut, was sent as an OK by the server |
| UploadSafety.CutReadyClaims | src/core/network/TransferServiceFileTransfer.cpp:63-73 | a READY line that the connection cut leaves the client with an offset the server has reached |
| UploadSessions.OneSession | server/server.cpp:253-360 | after any run of one connection the file is untouched, or its kept front part continued with source bytes; a Completed client means it is full, everything is counted as committed, and nothing is under way |
| UploadSessions.BytesUnderWay | server/server.cpp:302-341 | on an open connection the bytes sent but not yet written are exactly the bytes in the queue and in the server's buffer, in order |
| UploadSessions.ResumedUpload | server/server.cpp:252-360 | over any sequence of sessions, each cut anywhere, the file is initial[..off] followed by source[off..n], and the bytes all sessions accepted sum up to exactly its growth |
| UploadSessions.NeverShorter | server/server.cpp:261-279 | once a session has opened the file no later session makes it shorter |
| UploadSessions.CompletedUpload | src/core/network/TransferServiceFileTransfer.cpp:84-91 | a Completed upload leaves a file of full length, which equals the source exactly when the first contents were a prefix of it or longer than it |
| UploadSessions.OkNamesSize | server/server.cpp:346-355 | in every run of one connection a final line that begins with OK is, as far as it was heard, a front part of "OK:" and the size of the source; whole, its number parses to that size |
| UploadProgress.EveryStepShrinks | src/core/network/TransferServiceFileTransfer.cpp:110-146 | every step lowers a well-founded measure, so no run of a connection is infinite |
| UploadProgress.NeverStuck | server/server.cpp:291-360 | while nothing disturbs the connection and not both ends are done, one of them can step, however small the queues are |
| UploadProgress.UndisturbedUploadCompletes | src/core/network/TransferServiceFileTransfer.cpp:56-169 | an undisturbed run that cannot go on has both ends done, OK answered, everything committed and the source in the file behind the offset |
| UploadProgress.CanBeFinished | src/core/network/TransferServiceFileTransfer.cpp:56-169 | from every state of an undisturbed run some run leads to that end |
| UploadProgress.LookChangesNothing | server/server.cpp:315-346 | while a connection has its file for itself, a failing look at its size leads to the very same state |
| SharedUpload.OverlappingSessions | server/server.cpp:302-360 | any number of overlapping sessions, one detached thread each, interleaved at any write, keep the file a prefix of the source, and any session that answers OK leaves it equal to the source |
| SharedUpload.TruncatingOverlap | server/server.cpp:261-273 | when the server would start over, two sessions can overlap so that one is completed and the file is empty |
| SharedUpload.OverlapIsSafeExactlyWhen | server/server.cpp:253-289 | for a source with at least one byte and any file on disk: every overlap ends well if and only if the file is a prefix of the source that is not empty |
| FilePutServer.ReceiveLoop | server/server.cpp:302-341 | the receive loop appends what arrives up to the announced size and takes only steps of the machine |
| FilePutServer.HandleFilePut | server/server.cpp:243-361 | for every way out what is in the file, what was left unread and what was said: the kept front part with a front part of what arrived appended; READY with the offset and then "OK:" with the size of the file exactly when the file is full, ERROR otherwise, all of it unless a send failed; it gives up only when a call has failed; its run is one of the machine |
| UploadEnds.HandleClient | server/server.cpp:485-555 | a connection is served as the command in front of its bytes says, and not at all without a whole command line |
| UploadEnds.CompletedTogether | src/core/network/TransferServiceFileTransfer.cpp:84-169 | when what reaches each program is a front part of what the other sent and the client reports Completed, the server's file is full: its kept front part continued with the source |
| UploadEnds.OkNamesSize | src/core/network/TransferServiceFileTransfer.cpp:150-155 | a final line that begins with OK is a front part of "OK:" and the size of the source, and read whole its number parses to that size |
| UploadEnds.KeptTogether | server/server.cpp:253-360 | wherever the two programs were stopped the file is untouched or its kept front part continued with source bytes, as long as the client goes on at the server's offset or nothing it sends behind its command arrives |
| UploadEnds.ContinuedExactlyWhen | server/server.cpp:302-341 | whenever the server has changed the file: it is correctly continued if and only if the source bytes it took in equal those behind its own offset |
| UploadEnds.WholeOrEnded | src/core/network/TransferServiceFileTransfer.cpp:63-73 | a whole READY line, or one cut with the connection itself, lets the client go on at the server's offset or reach nobody |
| UploadEnds.UploadsTogether | server/server.cpp:252-360 | over any number of uploads by the programs the file is its first contents or correctly continued, and after a Completed one it is the source exactly when the first contents were a prefix of it or longer |
| UploadEnds.CutReadyOnOpenConnection | src/core/network/TransferServiceFileTransfer.cpp:63-73 | for every offset and every cut behind its first digit there are two connected ends where the server answers OK to bytes from a smaller offset, and the file is wrong if and only if the two stretches of the source differ, as they do when the byte at the offset is found nowhere before it |
| UploadEnds.RunBothEnds | src/core/network/TransferServiceFileTransfer.cpp:18-170 | the handler and the worker run on any bytes; where these are front parts of what the other sent, both results above hold of the disk |
| DownloadSafety.RequestUnderstood | server/server.cpp:556-589 | the range command is dispatched to the range handler with the bounds it was printed from |
| DownloadSafety.StepKeeps | server/server.cpp:385-457 | every step of a range connection keeps its invariant: the client has heard the size line and then the wanted bytes in order |
| DownloadSafety.SizeLineIsWhole | src/core/network/TransferServiceFileTransfer.cpp:261-267 | the first newline the client reads ends the size line, so no byte of it is taken for data |
| DownloadSessions.OpenLeavesOffset | src/core/network/TransferServiceFileTransfer.cpp:282-297 | opening leaves the target exactly as long as the offset: no hole and no stale tail |
| DownloadSessions.OneRange | src/core/network/TransferServiceFileTransfer.cpp:309-371 | at every point the target is untouched or its kept front part continued with remote bytes, as many as the client counts; Completed means the learned size |
| DownloadSessions.BytesUnderWay | server/server.cpp:426-453 | on an open connection the bytes read from the remote file but not yet received are exactly those in the queue and still to be sent |
| DownloadSessions.LearnedSizeOfReply | src/core/network/TransferServiceFileTransfer.cpp:197-204 | a cut reply, be it of the number or of a too short error, teaches a size that is never too large, and the right one exactly when the number is whole or the remote file empty |
| DownloadSessions.CompletedLengthIsRightExactlyWhen | src/core/network/TransferServiceFileTransfer.cpp:204-229 | a Completed download has the remote length if and only if the size reply arrived whole or the remote file is empty; an empty reply, or the first letters of an error, empty the target |
| DownloadSessions.ResumedDownload | src/core/network/TransferServiceFileTransfer.cpp:215-219 | over any sequence of interrupted downloads the target is initial[..off] followed by remote[off..n] and, once changed, never gets shorter |
| DownloadSessions.CompletedDownload | src/core/network/TransferServiceFileTransfer.cpp:366-370 | a Completed download has the remote length, and equals the remote file exactly when the first contents were a prefix of it or longer than it |
| DownloadProgress.EveryStepShrinks | server/server.cpp:426-453 | no run of a range connection is infinite |
| DownloadProgress.NeverStuck | src/core/network/TransferServiceFileTransfer.cpp:251-364 | while nothing disturbs the connection and not both ends are done, one of them can step |
| DownloadProgress.UndisturbedDownloadCompletes | src/core/network/TransferServiceFileTransfer.cpp:251-370 | an undisturbed run that cannot go on has both ends done and all wanted bytes in the target |
| DownloadProgress.CanBeFinished | server/server.cpp:385-457 | from every state of an undisturbed run some run leads to that end |
| FileSaveServer.SendRange | server/server.cpp:426-453 | the send loops put exactly the range, or a front part of it, on the connection |
| FileSaveServer.HandleFileSave | server/server.cpp:365-457 | for every way out what was sent and what was read; Sent means the size line and the whole clipped range after an exact OK line, and it is cut short only when a send has failed; its run is one of the machine |
| DownloadEnds.HandleClient | server/server.cpp:485-589 | a connection is served as the command in front of its bytes says: the size alone, a range, or nothing |
| DownloadEnds.ReplyArrives | src/core/network/TransferServiceFileTransfer.cpp:189-204 | what the client reads as the reply to its query is told for an error or is a front part of the number or of an error |
| DownloadEnds.DataArrives | server/server.cpp:378-453 | what the client finds behind the size line is a front part of the remote file from its offset on |
| DownloadEnds.KeptTogether | src/core/network/TransferServiceFileTransfer.cpp:172-374 | wherever the programs stopped the target is untouched, emptied for a learned size of zero, or its kept front part continued with remote bytes; Completed means the learned length |
| DownloadEnds.CompletedTogether | src/core/network/TransferServiceFileTransfer.cpp:204-229 | a download by the programs reported Completed has the remote length if and only if the size reply arrived whole or the remote file is empty |
| DownloadEnds.DownloadsTogether | src/core/network/TransferServiceFileTransfer.cpp:215-219 | over any number of downloads by the programs with whole replies the target is its first contents or correctly continued, and after a Completed one it is the remote file exactly when the first contents were a prefix of it or longer |
| DownloadEnds.FrontPartStays | src/core/network/TransferServiceFileTransfer.cpp:204-219 | whatever size replies arrive, whole or cut, a target that is a front part of the remote file stays one over any number of downloads |
| DownloadEnds.RunBothEnds | src/core/network/TransferServiceFileTransfer.cpp:172-374 | both handlers and the worker run on any bytes; where these are front parts of what the other sent, they are connected ends and the results above hold of the disk |
| UploadWorker.SendData | src/core/network/TransferServiceFileTransfer.cpp:110-146 | what was sent is the command and a slice of the source from the offset; a request recorded before the loop always halts it with the verdict of the table |
| UploadWorker.Negotiate | src/core/network/TransferServiceFileTransfer.cpp:56-91 | READY is refused exactly when the command was sent and the first line that arrives is no READY with a number; otherwise the offset is the server's, bounded by the file, and one at the end of the file completes the machine |
| UploadWorker.RunRegistered | src/core/network/TransferServiceFileTransfer.cpp:56-169 | Running is emitted exactly when data is going to be sent, then one closing status, last; halted in its loop or by a failed send it closes with what its last look in the history told it, a look behind the failed send; what it sent and where it left is fixed by what arrived and by a send that failed; a run asked to stop before it began ends as Failed exactly when its command was sent and READY refused or the file not positioned |
| UploadWorker.RefusedExactlyWhen | src/core/network/TransferServiceFileTransfer.cpp:63-169 | of the server's replies cut after k bytes, READY is refused exactly when k is at most 6 and the final OK exactly when fewer than two of its bytes arrived |
| UploadWorker.FileUploadResumable | src/core/network/TransferServiceFileTransfer.cpp:18-170 | nothing is emitted after a shutdown; otherwise Running exactly when it left in or behind its data loop, and exactly one closing status, last, Completed if and only if the call returns true; it registers its socket unless it is shut down, has no endpoint or file, or cannot connect, and cleans up once; halted or by a failed send it closes with the last request of the real history up to its last look, which lies behind the failed send, Failed only when there was none; what was sent is a front part of the command and the source from the offset |
| DownloadWorker.ReceiveLoop | src/core/network/TransferServiceFileTransfer.cpp:309-359 | what arrived is in the target however the loop ends; it is halted only by a look that told it so and fails to receive only with the failed call noted behind its last look; a request recorded before it always halts it |
| DownloadWorker.AskForRange | src/core/network/TransferServiceFileTransfer.cpp:251-301 | after the negotiation the target is as long as the offset and the next byte read is the first data byte |
| DownloadWorker.RunRegistered | src/core/network/TransferServiceFileTransfer.cpp:244-373 | one closing status, emitted last; halted or by a failed receive it closes with what its last look in the history told it, a look behind the failed receive, and otherwise fails once it receives only by a failing call on the target; a run asked to stop before it began ends as Failed exactly when the range was not asked for and confirmed or the target not opened |
| DownloadWorker.FileDownloadResumable | src/core/network/TransferServiceFileTransfer.cpp:172-374 | nothing is emitted after a shutdown; otherwise Running exactly when a range is going to be asked for, and exactly one closing status, last, Completed if and only if the call returns true; a registered task is cleaned up once; halted or by a failed receive it closes with the last request of the real history up to its last look, which lies behind the failed receive, Failed only when there was none; every early way out has its failed call or refusal; the target is settled by the learned size or continued with what arrived |
| ControlState.EraIsSinceCleanup | src/core/network/TransferControlState.cpp:56-62 | the operations a verdict depends on are exactly those since the last cleanup or clear |
| ControlState.OneLastRequest | src/core/network/TransferControlState.cpp:38-44 | pause and cancel are never both asked for, and one of them is if anything was |
| ControlState.KnownIsHeld | src/core/network/TransferControlState.cpp:7-12 | without a request a task that was registered since its last cleanup holds its registration, and no other does |
| ControlState.VerdictMeans | src/core/network/TransferControlState.cpp:14-31 | a task is told to go on exactly when it was registered and nothing was asked, Canceled exactly by a last cancel, Paused exactly by a last pause or when it is neither registered nor asked about |
| ControlState.HandedOutOnce | src/core/network/TransferControlState.cpp:46-53 | two different requests never find the same registration |
| ControlState.DirectionsAreSeparate | src/core/network/TransferControlState.cpp:75-83 | leaving out all operations of the other direction changes neither verdicts nor held sockets |
| ControlState.ResumedGoesOnExactlyWhen | src/core/network/TransferControlState.cpp:22-30 | after any history and whatever follows without a new registration: a resumed task is told to go on if and only if nothing was asked in the era it registers in and nothing was asked, cleaned up or cleared since |
| ControlState.ResumedSocketHeldExactlyWhen | src/core/network/TransferControlState.cpp:33-62 | its socket can be found by a request if and only if nothing was asked, cleaned up or cleared since it registered |
| ControlState.TransferControlState.RegisterSocket | src/core/network/TransferControlState.cpp:7-12 | the tables go on agreeing with the history, for every task of both directions |
| ControlState.TransferControlState.Check | src/core/network/TransferControlState.cpp:14-31 | the worker is told what the history of its task says: its last request, else to go on exactly when it is registered; and the look is recorded |
| ControlState.TransferControlState.Request | src/core/network/TransferControlState.cpp:33-54 | it returns the socket of the registration the task holds, -1 when it holds none, and the tables agree with the longer history |
| ControlState.TransferControlState.Cleanup | src/core/network/TransferControlState.cpp:56-62 | the tables agree with the history that ends in this cleanup |
| ControlState.TransferControlState.ActiveSockets | src/core/network/TransferControlState.cpp:64-67 | exactly the sockets that some task of the direction holds |
| ControlState.TransferControlState.ClearAll | src/core/network/TransferControlState.cpp:69-73 | both directions agree with the history that ends in this clear |
| TransferRun.RequestIsObeyed | src/core/network/TransferService.cpp:252-263 | a recorded request is not forgotten before the worker cleans up, whatever other threads do: the worker is told to stop |
| TransferRun.ToldAsAsked | src/core/network/TransferService.cpp:126-142 | a worker of a registered task that closes with what a look told it closes as the last request recorded by then: Paused, Canceled, or Canceled after a shutdown; Failed exactly when nothing was asked |
| TransferRun.TransferService.CheckTaskControlState | src/core/network/TransferService.cpp:220-242 | shutdown counts as a cancel, otherwise the verdict of the table at that moment; the look is the last operation of the history and the worker's only one since the call |
| TransferRun.TransferService.CleanupTaskControlState | src/core/network/TransferService.cpp:244-250 | afterwards the task has no request and no socket in the table, and the history has only grown by other threads and the cleanup |
| TransferRun.TransferService.HandleSocketSendFailure | src/core/network/TransferService.cpp:126-142 | a failed call closes the task once, with the status that the history gives up to the worker's last look; this look lies behind the failed call and nothing of the worker lies behind it; never Failed when a request was recorded before |
| Dispatch.EveryStateIsSound | src/core/network/TransferService.cpp:144-218 | in every reachable state before shutdown a waiting request implies the flag and a posted or running pass, and dispatched requests followed by queued ones are the enqueue order |
| Dispatch.ProgressShrinks | src/core/network/TransferService.cpp:183-218 | every step but a new request lowers a measure over callers, queue, workers, events and the running pass |
| Dispatch.RestMeansAllDispatched | src/core/network/TransferService.cpp:183-218 | at rest every request ever queued was dispatched, in order, and its callback has run |
| Dispatch.ComesToRest | src/core/network/TransferService.cpp:144-218 | from every reachable state a rest is reached, before a shutdown with everything queued so far dispatched |
| Dispatch.NothingAfterShutdown | src/core/network/TransferService.cpp:190-194 | after the shutdown flag is set nothing is handed to a worker |
| Dispatch.AllDispatchedExactlyWhen | src/core/network/TransferService.cpp:27-35 | in every run with a shutdown that has come to rest, all queued requests were dispatched if and only if nothing was queued and no caller waited for the lock when the flag was set |
| Dispatch.RestAfterShutdownIsFinal | src/core/network/TransferService.cpp:183-218 | at rest after a shutdown no action at all is possible any more |
| Dispatch.LateRequestIsStranded | src/core/network/TransferService.cpp:146-152 | a caller that saw no shutdown can leave a request in the emptied queue, in a state in which nothing can happen any more |
| Dispatch.TransferQueue.EnqueueTransferTask | src/core/network/TransferService.cpp:144-153 | it takes only steps of the machine and queues its request by the last of them, or nothing after a shutdown |
| Dispatch.ScheduledIsSound | src/core/network/TransferService.cpp:155-163 | before a shutdown, if a set flag meant a pass posted or running, then after scheduling a waiting request means the flag and such a pass; order and accounting are kept |
| Dispatch.TransferQueue.ProcessTaskQueue | src/core/network/TransferService.cpp:183-218 | with other threads acting between its locked sections the pass ends with an empty queue and, without shutdown, everything queued by then dispatched |
| Dispatch.TransferQueue.TransferFinished | src/core/network/TransferService.cpp:208-215 | the callback takes one step of the machine and leaves a pass posted when requests wait |
| LoadCoordinator.DeliveriesRise | src/features/directory/DirectoryLoadCoordinator.cpp:22-56 | in every run handlers get results in the order of their requests, each at most once and for what was asked |
| LoadCoordinator.NothingStale | src/features/directory/DirectoryLoadCoordinator.cpp:39-51 | nothing issued before a newer request or a cancel is delivered after it |
| LoadCoordinator.CancelSilences | src/features/directory/DirectoryLoadCoordinator.cpp:58-61 | after a cancel only requests issued after it are delivered |
| LoadCoordinator.LastRequestIsDelivered | src/features/directory/DirectoryLoadCoordinator.cpp:44-52 | once everything has come to rest a last request that was not cancelled has been delivered, last |
| LoadCoordinator.StepsAreUsedUp | src/features/directory/DirectoryLoadCoordinator.cpp:31-53 | workers and callbacks use themselves up, so rest is reached |
| LoadCoordinator.DirectoryLoadCoordinator.Request | src/features/directory/DirectoryLoadCoordinator.cpp:22-56 | the returned number was never used and is the current one |
| LoadCoordinator.DirectoryLoadCoordinator.Work | src/features/directory/DirectoryLoadCoordinator.cpp:31-53 | with the counter moving at any time a worker fetches exactly when its request is current at its first look, posts what it fetched exactly when it still is at its second, and is then gone |
| LoadCoordinator.DirectoryLoadCoordinator.RunCallback | src/features/directory/DirectoryLoadCoordinator.cpp:44-52 | the handler is called exactly when its request is still the current one |
| FileBrowser.DrainedTreesAreCurrent | src/features/directory/FileBrowser.cpp:188-223 | whatever order fetches end in, once all are back every tree shows the list fetched for its own last load and none waits |
| FileBrowser.ShownOnlyGetsNewer | src/features/directory/FileBrowser.cpp:209-219 | no result of an older load replaces what a newer one put into a tree, and a filled tree stays until it is loaded again |
| FileBrowser.Browser.LoadFileList | src/features/directory/FileBrowser.cpp:188-206 | the tree waits for this load from now on |
| FileBrowser.Browser.RunCallback | src/features/directory/FileBrowser.cpp:209-220 | a callback fills its tree with its list only when it belongs to the tree's last load, and changes nothing otherwise |
| DirectorySync.HasChanged | src/core/network/DirectoryService.cpp:177-188 | the comparison loop finds a change exactly when the lists differ in length or two entries in one place differ in anything but their time |
| DirectorySync.EmissionIsCurrent | src/core/network/DirectoryService.cpp:190-201 | every emitted update is of its node's current token, differs from its tick's snapshot and is the stored list afterwards |
| DirectorySync.CancelledTokensAreSilent | src/core/network/DirectoryService.cpp:167-195 | no worker or callback of a cancelled token ever emits |
| DirectorySync.RestartSilencesOlderWorkers | src/core/network/DirectoryService.cpp:131-137 | after a restart no update of a tick from before it is emitted |
| DirectorySync.StoppedNodesAreSilent | src/core/network/DirectoryService.cpp:211-221 | between a stop and the next start a node emits nothing |
| DirectorySync.TwoTicksHappen | src/core/network/DirectoryService.cpp:141-167 | from every reachable state in which a node is synced two ticks of its token can both get a worker that fetches, both with the same snapshot |
| DirectorySync.UnhurriedTicksComeInOrder | src/core/network/DirectoryService.cpp:141-201 | in every run in which no timer fires while a worker of its token is under way, the updates of the token are emitted in the order of their ticks |
| DirectorySync.OlderTickCanComeLast | src/core/network/DirectoryService.cpp:166-201 | from every reachable state with two fetches of one live token some run emits the later tick's list first and leaves the earlier tick's stored |
| DirectorySync.DirectoryService.StartFileListSync | src/core/network/DirectoryService.cpp:131-209 | afterwards the newest token of the node is its only one that is not cancelled |
| DirectorySync.DirectoryService.StopFileListSync | src/core/network/DirectoryService.cpp:211-221 | afterwards every token the node ever had is cancelled |
| DirectorySync.DirectoryService.TimerTimeout | src/core/network/DirectoryService.cpp:141-167 | a tick begins a worker with the stored list exactly while its node is synced |
| DirectorySync.DirectoryService.BeginFetch | src/core/network/DirectoryService.cpp:166-172 | a worker fetches exactly while its node still has its token |
| DirectorySync.DirectoryService.FinishFetch | src/core/network/DirectoryService.cpp:172-192 | a fetched list is posted exactly as the machine says: changed and not cancelled |
| DirectorySync.DirectoryService.RunCallback | src/core/network/DirectoryService.cpp:191-201 | the list is stored and emitted exactly when the node still has the worker's token |
| DirectoryListing.PrintFileList | server/server.cpp:169-203 | the loop prints every entry but the two dot entries, in order, as three fields |
| DirectoryListing.ParseFileList | src/core/network/DirectoryService.cpp:96-111 | the loop makes the k-th entry of the k-th three parts of the first line and drops what is left over: name, size or 0, kind, and as path the directory, one slash and the name |
| DirectoryListing.ListingRoundTrip | src/core/network/DirectoryService.cpp:96-111 | the client sees exactly the listed entries, each with its size, kind and the path of the directory, one slash and its name, in order, if and only if no name is empty or holds a separator or newline |
| DirectoryListing.EntriesAreBelow | src/core/network/DirectoryService.cpp:103 | every entry of any reply leads one part further down: its path is that of the directory's parts and its name, its parent is the directory, and its breadcrumbs are the directory's and one more |
| DirectoryListing.CutListingIsFrontPart | src/core/network/DirectoryService.cpp:86-89 | a listing cut at any byte shows a front part of the entries, never a wrong one |
| DirectoryListing.LooksEmptyExactlyWhen | src/core/network/DirectoryService.cpp:96-111 | a reply shows nothing if and only if its first line has fewer than three parts |
| DirectoryListing.ErrorIsToldApartExactlyWhen | server/server.cpp:196-201 | an error line always shows nothing, a listing exactly when it is empty, so the two differ if and only if there is something to list |
| PathNavigation.Breadcrumbs | src/features/directory/DirectoryPathNavigation.cpp:21-32 | the loop computes the crumbs of the parts of the path |
| PathNavigation.ParentOfCrumb | src/features/directory/DirectoryPathNavigation.cpp:10-19 | the parent of a crumb's path is the crumb before it, "/" for the first |
| PathNavigation.ParentIsAnother | src/features/directory/DirectoryPathNavigation.cpp:10-19 | only the root and the empty path have no parent, and a parent is another path that is not empty |
| PathNavigation.ClimbReachesRoot | src/features/directory/DirectoryPathNavigation.cpp:10-19 | climbing from the last crumb is at "/" from exactly as many steps on as there are crumbs |
| PathNavigation.CrumbsOfCrumb | src/features/directory/DirectoryPathNavigation.cpp:21-32 | the breadcrumbs of a crumb's own path are the crumbs up to it |
| PathNavigation.LastCrumbIsPathExactlyWhen | src/features/directory/DirectoryPathNavigation.cpp:21-32 | the last crumb leads to the path itself exactly when the path starts at the root, doubles no slash and does not end in one |
| PathNavigation.ParentDropsLastPartExactlyWhen | src/features/directory/DirectoryPathNavigation.cpp:16-17 | on any path, the parent loses the last part exactly when the path does not end in a slash |
| FileNames.SanitizedFileName | src/core/network/TransferProtocolClient.cpp:117-129 | the loop computes the name without its unusable front and trailing space |
| FileNames.SanitizedMeans | src/core/network/TransferProtocolClient.cpp:117-129 | the result is a stretch of the name from its first usable character on, empty exactly when there is none |
| FileNames.SanitizedTwice | src/core/network/TransferProtocolClient.cpp:117-129 | sanitizing again changes nothing |
| TaskManager.ProgressMeans | src/features/transfers/TaskManager.cpp:629-637 | progress is the one percentage p with p percent of the bytes there and p+1 percent not, 100 exactly when all bytes of a known size are there, 0 exactly below one percent |
| TaskManager.ProgressRises | src/features/transfers/TaskManager.cpp:629-637 | more bytes never show less progress |
| TaskManager.ProductFits | src/features/transfers/TaskManager.cpp:635-636 | the product stays in 64 bits for totals up to (2^63-1)/100 and for no larger total |
| TaskManager.SyncDownloadTransferredBytes | src/features/transfers/TaskManager.cpp:593-605 | the bytes become the larger of recorded and on disk, kept inside a known size, with matching progress |
| TaskManager.SyncUploadTransferredBytes | src/features/transfers/TaskManager.cpp:612-627 | an unknown size is looked up, the bytes are kept inside it, with matching progress |
| TaskManager.SyncedOffset | src/features/transfers/TaskManager.cpp:593-627 | resume offsets lie in [0, fileSize], are never before what a download has on disk, and looking twice changes nothing |
| TaskManager.TransitionsByTarget | src/features/transfers/TaskManager.cpp:465-488 | only what waits or is paused can be started, only what runs paused or completed, only what was started failed or cancelled; nothing leaves a status that ends a task |
| TaskManager.IdsDiffer | src/features/transfers/TaskManager.cpp:37-62 | the printed id determines kind and number |
| TaskManager.PrefixTellsMap | src/features/transfers/TaskModule.cpp:372 | the maps share no id and the prefix test agrees with membership |
| TaskManager.TaskManager.AddDownloadTask | src/features/transfers/TaskManager.cpp:30-56 | the new id was never used by any task, removed ones included, and all tasks stay consistent |
| TaskManager.TaskManager.AddUploadTask | src/features/transfers/TaskManager.cpp:58-78 | the same for uploads |
| TaskManager.TaskManager.RemoveTask | src/features/transfers/TaskManager.cpp:80-102 | the task is gone, a cancel of its kind is sent, and no other task changes |
| TaskManager.TaskManager.PauseTask | src/features/transfers/TaskManager.cpp:104-135 | the bytes are looked up before the pause is sent |
| TaskManager.TaskManager.CancelTask | src/features/transfers/TaskManager.cpp:137-166 | only the status changes and a cancel is sent |
| TaskManager.TaskManager.StartTask | src/features/transfers/TaskManager.cpp:173-186 | a transfer is requested exactly for a waiting or paused task, from an offset inside its file |
| TaskManager.TaskManager.UpdateTaskProgress | src/features/transfers/TaskManager.cpp:356-390 | the emitted percentage is that of the bytes that came in, rounded down, of the size that came in or the known one |
| TaskManager.TaskManager.UpdateTaskStatus | src/features/transfers/TaskManager.cpp:397-440 | any status is taken over; one that ends or interrupts the transfer has the bytes looked up, and a Completed task of known size shows all its bytes |
| TaskManager.TaskManager.ResetTaskProgress | src/features/transfers/TaskManager.cpp:442-458 | bytes and progress are zero and stay consistent |
| TaskModule.FindTaskListItem | src/features/transfers/TaskListController.cpp:256-270 | the first row of the id if there is one |
| TaskModule.RemoveTaskById | src/features/transfers/TaskListController.cpp:232-248 | exactly the id's row is gone |
| TaskModule.RemoveCheckedRows | src/features/transfers/TaskModuleScheduling.cpp:58-74 | exactly the rows that were not checked stay, in order |
| TaskModule.TaskModule.CreateDownload | src/features/transfers/TaskModule.cpp:28-43 | a new task with the given fields gets the one row of its id and is running, requested once from the bytes on disk inside its size; no other task changes |
| TaskModule.TaskModule.CreateUpload | src/features/transfers/TaskModule.cpp:28-43 | the same for an upload, requested from offset 0 |
| TaskModule.TaskModule.DeleteTaskById | src/features/transfers/TaskModule.cpp:45-59 | the id is gone from the manager and from both lists, and the transfer of a task that was known is asked to end |
| TaskModule.TaskModule.HandleTaskCompletion | src/features/transfers/TaskModule.cpp:245-320 | a move is reported exactly when the id has an active row and a task, never twice for an id, and no id ever has two rows; the finished row has the name of the active one, and the manager forgets the task and asks its transfer to end |
| TaskModule.TaskModule.TryAppendFinishedTaskFromRunningList | src/features/transfers/TaskModule.cpp:357-401 | it reports a move exactly when the id has an active row, which then goes to the end of the finished list with its own progress; its one caller has found no such row |
| TaskModule.TaskModule.CancelCheckedTasks | src/features/transfers/TaskModule.cpp:151-162 | the checked rows and exactly their tasks are gone, and the transfer of each is asked to end |
| TaskModule.TaskModule.DeleteCheckedFinishedTasks | src/features/transfers/TaskModule.cpp:184-187 | the checked finished rows are gone and no task changes |

## Left out

- Timeouts: a connection ends or breaks, but a receive that gives up after a time while bytes are still to come is only modelled as the end of the connection.
- Paths: canonicalisation and the root and write-root checks; the model starts behind them, and a refused path is a server that stops.
- Error texts: the model keeps the word ERROR in front and not the explanation behind it; error replies that the server sends right before closing are a closed connection in the machines.
- Sockets: creation, addresses and the double close of a socket that control has already closed.
- Reads of a local file fail only at its end; a file that changes during a session, on either side, is outside the model.
- The overlap of several sessions on one upload takes the same source, name and size for all of them, and there a `stat` of the open file succeeds.
- One worker at a time runs a task in a direction; only `ControlState.ResumedGoesOnExactlyWhen` and `ControlState.ResumedSocketHeldExactlyWhen` look at two.
- `DownloadSessions` takes it that a target to be emptied can be opened; `DownloadEnds` does not.
- `UploadEnds` and `DownloadEnds` run the programs after one another on all that reaches them, without the order in which bytes cross; the machines have that order.
- The loops of `TransferService` run with an arbitrary but finite number of requests from other threads.
- UploadWorker.FileUploadResumable: the progress signals, the speed and the throttling of both workers are left out; only statuses are recorded.
- DownloadWorker.FileDownloadResumable: creating the target's directory is left out, and the size of the target can always be looked up.
- FileNames.SanitizedFileName: which characters are letters is a parameter, and white space is that of the C locale.
- DirectoryListing.ParseFileList: the time of an entry and UTF-8 decoding are left out.
- LoadCoordinator and FileBrowser count without the wrap-around of 64 bits.
- FileBrowser: other code that fills or clears a tree.
- TaskManager: speed, display names, snapshots and `updateTaskStatusAtomically`, which has no caller in these flows.
- TaskModule: text, icons and the select-all boxes of the lists.
- `Database`, `NodeService`, the gateways, the policies made of tables, all widgets and the feedback summary.
