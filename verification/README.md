# A verified model of HiTuxShare's core

HiTuxShare is a BeShare client: it chats through a MUSCLE server, publishes shared files as
nodes on that server, searches other users' nodes with live queries, and moves files
directly between peers. This project models the state machines in its core and proves what
they promise. Each handler that changes an object's fields is a method of a class with those
fields, proved against a function on values; the properties of whole runs are proved about
those functions, as invariants over every sequence of events and every interleaving.

| file | models |
|---|---|
| `ChunkIntegrity.dfy` | chunk checksums and XOR munging |
| `OutputPath.dfy` | sanitising of peer-supplied names, choice of the output file |
| `TransferProtocol.dfy`, `DownloadSession.dfy`, `DiskSafety.dfy`, `DownloadLaws.dfy` | one download, what it does to the disk, and exactly what fails it |
| `SharedDirectory.dfy` | any number of downloads on one disk |
| `UploadServer.dfy`, `UploadProgress.dfy`, `UploadAdmission.dfy` | the upload server: its handlers, termination of their mutual recursion, progress, pacing, the cap |
| `SlotLaws.dfy`, `SecondRequests.dfy`, `Overtaking.dfy` | who gets, keeps and loses an upload slot, and what a second file list can do to the others |
| `TransferScript.dfy`, `TransferReceiver.dfy`, `TransferSystem.dfy`, `HangUpRuns.dfy` | one server and any number of downloads over FIFO channels, end to end; three runs that a hang-up ends |
| `DownloadScheduling.dfy` | the download manager, re-entered by its own callbacks |
| `QueryProtocol.dfy`, `QuerySweep.dfy` | live queries: the client alone, and client and server over FIFO channels |
| `RowIndex.dfy`, `ResultTable.dfy`, `UserMirror.dfy`, `UserFields.dfy` | keys and hash indexes of the table models, the result table, the user registries, the list that mirrors them, and what its fields hold |
| `ShareScan.dfy`, `WalkOrder.dfy`, `BatchPublishing.dfy` | the two-thread share scanner, its walk entry by entry, and batched publishing |
| `RecentList.dfy`, `RateWindow.dfy`, `Prelude.dfy` | remembered lists, the transfer rate, shared definitions |

The main results are `TransferSystem.TransfersAreFaithful`, `QuietMeansDelivered` and
`HangUpOutcome`, `UploadAdmission.NotificationsMoveOn`, `DownloadLaws.MessagesThatFail`,
`SharedDirectory.DownloadsShareTheDisk`, `SlotLaws.WaitersFindSlotsInUse` and
`OneSlotServesNobody`, `Overtaking.OpenFilesAreSafe`,
`DownloadScheduling.AbortAllQuiesces` and `ListedTurnsAreStarted`,
`QueryProtocol.ActiveQueryIsAskedFor`, `QuerySweep.PongEndsSweep` and `StaleRepliesDecide`,
`UserMirror.UserListMirrorsRegistries`, `UserFields.UsersAreAsLastTold`,
`ResultTable.RowsRefineMap`, `WalkOrder.WalkIsExact`, `ShareScan.ScanConserves` and
`RecentList.StoredListIsRecentHistory`.

## Where the code says otherwise than its comments

The model follows the code. Each of these is a lemma, named at its end.

- A requester that is not on the waiting list counts itself when the upload slots are counted
  (core/FileUploadServer.cpp:282), so a newcomer is served at once only while two slots are
  free (`RequestAdmitted`). With a cap of one nobody is served before a departure, unless a
  peer that waits asks again: then it is not counted (`OneSlotServesNobody`).
- For the same reason a waiting peer that asks again can be served ahead of others that were
  accepted earlier and wait, although the queue is served in the order of acceptance
  (`AskingAgainJumpsTheQueue`).
- A peer that asks again in the middle of a transfer, while the slots are used up, is put on
  the waiting list with its file open or about to open. From then on more files can be open
  than there are slots (`SecondListOverrunsOpenFiles`), and such requests are the only way
  there (`OpenFilesAreSafe`). The served peers stay within the cap all the same
  (`SlotsAreCapped`).
- A served peer that asks again for nothing on offer gives its slot up without anybody being
  called (`SecondListLeavesSlotsVacant`); that is the only way for two slots to be vacant
  while somebody waits (`WaitersFindSlotsInUse`).
- The end of a peer's files frees no slot, contrary to core/FileUploadServer.cpp:396: a served
  peer keeps its slot until it leaves or asks again (`ServedUntilGivenUp`).
- A download cancelled while it waits is started when its turn comes
  (`CancelledWhileQueuedIsStarted`); the check meant for this (core/DownloadManager.cpp:154-155)
  only notices downloads that have left the list (`ListedTurnsAreStarted`).
- A hang-up with nothing open counts as finished as soon as one file is complete, although
  the comment at core/FileDownload.cpp:223 speaks of everything asked for
  (`FinishedWithAFileMissing`). An empty file is completed by the next header only, so a
  trailing one is lost to the hang-up (`TrailingEmptyFileIsLost`). `HangUpOutcome` says
  exactly when a hang-up ends well, and when with nothing missing.
- The re-check of results against the current query (core/ServerConnection.cpp:715-717) keeps
  the queries apart, but a stale result that also matches the new query may stay for good
  (`StaleResultCanLinger`); whether one will is decided when the server takes the new
  subscription up (`StaleRepliesDecide`).
- Our own session is kept out of the user list (core/ServerConnection.cpp:582-583) only once
  its ID has arrived (`OwnNodeBeforeOwnId`); if it was listed before, it stays listed until a
  removed node takes it off (`OwnSessionListed`).
- A newline can appear in a file name, contrary to qt/FileResultModel.cpp:314; the key is
  injective all the same, because only session IDs must be free of it
  (`ResultKeyInjective`); `SessionsCollide` says exactly which session IDs can share a key.
- Entries of one result batch are compared with the rows held before the batch, not with each
  other, so a repeated new node makes two rows, of which a removal takes one (`RepeatLeavesARow`).
- The file count announced after a scan can leave out files queued between the two calls at
  qt/MainWindow.cpp:947 and 958 (`AnnouncedCountMayLag`); and switching sharing off leaves
  the scanner's queue in place, so that the next look publishes what is in it
  (`LeftoversAreSharedAfterStop`).

## What is supposed

- Channels are FIFO and lose nothing while a session is up; messages arrive only while it is
  up. Session and download identities are not reused.
- End to end: the share table and the shared files do not change and announced sizes are
  right. One file list per session is not supposed there: `FileDownload` sends exactly one.
- The query server takes commands and sends replies in order. It may cut a sweep into any
  batches, and any number of replies may have left it before a jettison reaches them.
- Pattern matching is a relation between pattern and text, the same for client and server.
- The paths that downloads create are removed or written by nothing but the downloads of the
  one manager. That these keep out of each other's way is proved, not supposed, for downloads
  begun at most once, which `DownloadScheduling.StartedAtMostOnce` says of the manager's.
- Directory entries have names; a scan that has been told to stop stays told.

## Model

| member | source | states |
|---|---|---|
| ChunkIntegrity.CalculateChecksum | core/FileDownload.cpp:566-576 | the wrapping 32-bit loop, run on a buffer with shifts that are cut off at 32 bits, returns the weighted sum of the bytes modulo 2^32 |
| ChunkIntegrity.ShiftLosesNothing | core/FileUploadServer.cpp:470-478 | no shift of a byte by i mod 24 loses a bit, for any position |
| ChunkIntegrity.WeightedSumUpdate | core/FileDownload.cpp:566-576 | replacing one byte changes the weighted sum by that byte's difference times its weight |
| ChunkIntegrity.SingleByteChangeDetected | core/FileDownload.cpp:388-396 | for every length and position, changing one byte changes the checksum, also after its trip through the int32 field of the message |
| ChunkIntegrity.SwapDetected | core/FileDownload.cpp:566-576 | swapping two bytes of a chunk goes unseen if and only if they are equal or a multiple of 24 places apart |
| ChunkIntegrity.TwoByteChangeCanEscape | core/FileDownload.cpp:385-387 | the checksum is weak: two different two-byte chunks that share one |
| ChunkIntegrity.MungeInPlace | core/FileUploadServer.cpp:405-408 | the XOR loop turns exactly the first count bytes of the buffer into their munged form and leaves the rest alone |
| ChunkIntegrity.MungedTwice | core/FileDownload.cpp:405-407 | munging twice is the identity |
| ChunkIntegrity.MungedWeightedSum | core/FileUploadServer.cpp:405-423 | the weighted sums of a chunk and of its munged form add up to a number that depends on the length alone |
| ChunkIntegrity.MungedChecksumComplement | core/FileUploadServer.cpp:416-423 | so do the two checksums, modulo 2^32: summing before or after munging is not the same thing, but each determines the other |
| OutputPath.SanitizePathComponent | core/FileDownload.cpp:579-610 | the loop of repeated stripping and trimming computes one cut: neutralise, drop everything that may not lead, trim the end |
| OutputPath.Neutralise | core/FileDownload.cpp:582-596 | the loop replaces each unsafe character and keeps every other one in place |
| OutputPath.StripOnce | core/FileDownload.cpp:598-604 | trimming white space off both ends, before and inside the stripping loop, changes nothing that the one final cut would keep |
| OutputPath.SanitizedIsSafe | core/FileDownload.cpp:579-610 | no result holds a separator or control character, or begins with a dot, a dash or white space, or ends with white space |
| OutputPath.NeutralisedExactly | core/FileDownload.cpp:585-596 | exactly the two separators and the control characters become underscores |
| OutputPath.SafeIffUnchanged | core/FileDownload.cpp:579-610 | sanitising leaves a name alone if and only if it is safe already; sanitising twice is sanitising once |
| OutputPath.SanitizedIsTheMiddle | core/FileDownload.cpp:579-610 | what is cut off the neutralised name is a run that may not lead at the front and white space at the end, and nothing in between |
| OutputPath.FoldersAreKept | core/FileDownload.cpp:467-481 | each of the sharer's folders is kept under its sanitised name, in order; one whose name comes to nothing is left out; without retained paths none is kept |
| OutputPath.RenameKeepsExtension | core/FileDownload.cpp:489-499 | the number of a spelling goes before what follows the last dot that is not the first character, and to the end if there is none |
| OutputPath.PlainSpellingFirst | core/FileDownload.cpp:483-507 | the plain spelling is used if it is free, and otherwise the first numbered one that is |
| Prelude.DecimalReads | core/FileDownload.cpp:496-498 | the digits printed for a number stand for that number |
| OutputPath.BuildDirectory | core/FileDownload.cpp:467-481 | the directory is the base followed by the sanitised non-empty components of the peer's sub-path, or just the base when paths are not retained |
| OutputPath.PickCandidate | core/FileDownload.cpp:486-507 | the rename loop finds the least candidate that is free, or none when all are taken |
| OutputPath.LeastFree | core/FileDownload.cpp:486-507 | a candidate is chosen only if it is free and all earlier ones are taken; none only if all are |
| OutputPath.ChooseOutputPath | core/FileDownload.cpp:460-515 | the path opened for a peer's name and sub-path is the specified one |
| OutputPath.ChosenPathIsContained | core/FileDownload.cpp:460-515 | for every name and sub-path a peer can send, the file opened lies lexically under the download directory, on a path that was free |
| OutputPath.ChosenPathFailsOnlyWhenExhausted | core/FileDownload.cpp:460-507 | no path is found if and only if the name sanitises to nothing or all 63 spellings are taken |
| TransferProtocol.ApplyMungeTwice | core/FileDownload.cpp:402-412 | whatever the mode of a chunk, decoding undoes encoding |
| DownloadSession.FileDownload.FinishFile | core/FileDownload.cpp:528-551 | closing a file: complete when the size is not positive or reached, and then reported; otherwise removed |
| DownloadSession.FileDownload.AbortTransfer | core/FileDownload.cpp:162-178 | an abort closes and removes the part-written file; once over, nothing more happens |
| DownloadSession.FileDownload.OpenOutputFile | core/FileDownload.cpp:460-515 | opening creates an empty file at the chosen path, or changes nothing |
| DownloadSession.FileDownload.ReceiveFileHeader | core/FileDownload.cpp:332-361 | a header first finishes the open file; a malformed one, or a file that cannot be created, aborts |
| DownloadSession.FileDownload.ReceiveFileData | core/FileDownload.cpp:364-438 | a chunk is checked as it came over the wire, then decoded; a bad checksum or an unknown mode aborts, a message without data finishes the file |
| DownloadSession.FileDownload.WriteBytes | core/FileDownload.cpp:414-437 | a short write aborts; a full one is counted, and reaching the announced size finishes the file |
| DownloadSession.FileDownload.Receive | core/FileDownload.cpp:238-278 | dispatch of every message a peer can send |
| DownloadSession.FileDownload.Connected | core/FileDownload.cpp:204-214 | on connection: identity first, then exactly one file list, asking for XOR |
| DownloadSession.FileDownload.Disconnected | core/FileDownload.cpp:217-235 | a hang-up fails the download when a file is open or nothing is complete, and finishes it otherwise |
| DownloadSession.FileDownload.Begin | core/FileDownload.cpp:115-159 | a start without requested files does nothing; otherwise it is connecting or has failed at once |
| DownloadLaws.MessagesThatFail | core/FileDownload.cpp:332-457 | in every run, a connected download is failed by exactly these: a refusal; a header without name or size, or for which no file can be created; with a file open, a chunk whose bytes do not have the sum sent with them, in an unknown encoding, or that the disk does not take. It is then closed, keeps what it had completed, and leaves nothing else on the disk |
| DownloadLaws.DamagedChunkFails | core/FileDownload.cpp:388-396 | a chunk as the server sends it, with any one byte changed on its way, fails the download and is not on the disk afterwards |
| DownloadLaws.AcceptedChunkIsWritten | core/FileDownload.cpp:402-437 | any other chunk is appended, decoded, to the file being written and to no other, and completes it exactly if its size is known and reached |
| DownloadLaws.FileEnds | core/FileDownload.cpp:371-376 | a message without data ends the file: short ones are removed, others are complete |
| DownloadLaws.ConnectedAfterLink | core/FileDownload.cpp:115-214 | in every run a download is connected only if it has requested files, has been begun towards a peer that could be reached, and its link has come up since |
| DownloadLaws.CancelledIsOver | core/FileDownload.cpp:162-178 | in every run a cancelled download is over, and stays over and as it was until it is begun anew |
| DiskSafety.StepKeepsClean | core/FileDownload.cpp:162-178 | every event keeps the disk clean and keeps every completed file; at most the file being written joins them, at its announced length |
| DiskSafety.EveryRunIsDiskSafe | core/FileDownload.cpp:332-438 | after every run of one download: earlier files untouched, new paths inside the download directory, exactly the completed files plus the one being written, whose length is the byte count; nothing partial once the download is over |
| DiskSafety.CompletedFilesAreKept | core/FileDownload.cpp:528-551 | a file once reported complete stays reported, on disk and unchanged, through any continuation of any run |
| SharedDirectory.MoveKeepsInv | core/FileDownload.cpp:162-178 | every event of any download keeps the paths of all of them apart, although an abort removes a file by a path it may have kept |
| SharedDirectory.DownloadsShareTheDisk | core/FileDownload.cpp:460-551 | any number of downloads in any interleaving: earlier files untouched, the new paths exactly those completed or being written, no path shared by two downloads, each in its own download's directory, open files as long as their byte counts, nothing partial left by a download that is over |
| SharedDirectory.NobodyDisturbsAnother | core/FileDownload.cpp:162-178 | in every run, a step of one download leaves the files of every other, complete or open, on the disk and unchanged |
| SharedDirectory.CompletedStayComplete | core/FileDownload.cpp:528-551 | a file that any of them has completed stays on the disk unchanged through any continuation of all of them |
| UploadServer.FileUploadServer.SetMaxSimultaneousUploads | core/FileUploadServer.h:72-76 | the cap is at least one |
| UploadServer.FileUploadServer.CountActiveUploads | core/FileUploadServer.cpp:301-312 | the loop counts the peers that have requests and are not queued |
| UploadServer.FileUploadServer.BeginNext | core/FileUploadServer.cpp:337-376 | the next requested file that still opens is begun with its header; vanished ones are passed over without a trace |
| UploadServer.FileUploadServer.MakeChunk | core/FileUploadServer.cpp:405-423 | a chunk is munged first and summed as it goes on the wire |
| UploadServer.FileUploadServer.SendToPeer | core/FileUploadServer.cpp:457-467 | a message goes to one session and no other |
| UploadServer.FileUploadServer.SendBytes | core/FileUploadServer.cpp:416-435 | one chunk goes out and one drain notification is asked for |
| UploadServer.FileUploadServer.SendNext | core/FileUploadServer.cpp:379-440 | sends the next chunk, or at the end of a file goes on to the next file or the next peer; with the two members below it terminates for any mix of empty and vanished files, by waiting peers and then remaining files |
| UploadServer.FileUploadServer.BeginAndSendNext | core/FileUploadServer.cpp:295-297 | begin a file and, if one began, send its first chunk |
| UploadServer.FileUploadServer.StartNextQueued | core/FileUploadServer.cpp:315-334 | while a slot is free, the earliest-accepted waiting peer is taken off the queue and served |
| UploadServer.FileUploadServer.Promote | core/FileUploadServer.cpp:327-332 | the peer taken off the queue is the first that waits, and it is served |
| UploadServer.BeginNextFile | core/FileUploadServer.cpp:337-376 | something is begun exactly when a file is open afterwards; the requests stay, and what remains of them shrinks |
| UploadProgress.BeginsIfAnyIsThere | core/FileUploadServer.cpp:337-376 | something is begun if and only if a requested file that has not had its turn is still there; otherwise the peer is through |
| UploadServer.FileUploadServer.Accept | core/FileUploadServer.cpp:142-152 | a new session holds no requests and no slot |
| UploadServer.FileUploadServer.Detach | core/FileUploadServer.cpp:155-169 | a departure forgets the peer and offers its slot to the queue |
| UploadServer.FileUploadServer.Drained | core/FileUploadServer.cpp:204-223 | one drain notification moves its own session on by one step, and no other; a late one is ignored |
| UploadServer.FileUploadServer.ResolveNames | core/FileUploadServer.cpp:248-262 | the names on offer, in request order; unknown names are skipped |
| UploadServer.EachNameCounts | core/FileUploadServer.cpp:248-262 | each name of a list stands for its file if it is on offer and for nothing if not, whatever comes before or after it |
| UploadServer.FileUploadServer.FileListReceived | core/FileUploadServer.cpp:229-298 | the whole of a request: recorded, counted with the requester in it, then queued with a notice or served |
| UploadServer.FirstWaiting | core/FileUploadServer.cpp:321-333 | the peer chosen waits, and nobody accepted before it does; none is chosen only when nobody waits |
| UploadAdmission.StepKeepsGood | core/FileUploadServer.cpp:142-223 | every event, however often a session has asked, keeps pacing and keeps the served peers within the cap |
| UploadAdmission.NotificationsArePaced | core/FileUploadServer.cpp:430-436 | in every run the outstanding drain notifications of a session never exceed the file lists it has sent |
| UploadAdmission.NobodyStalls | core/FileUploadServer.cpp:204-223 | in every run, with any number of lists and on a disk that changes, a peer that is not waiting has a notification on its way, or no file open and none left to open |
| UploadAdmission.NotificationsMoveOn | core/FileUploadServer.cpp:379-440 | in every run, a notification that arrives makes the server send its peer more if anything can still be sent, and only then unless the peer waits |
| UploadAdmission.EndOfFilesCallsWaiter | core/FileUploadServer.cpp:388-398 | in every run, when a peer's last file ends while a slot is vacant, the waiting peer accepted earliest gets it |
| UploadAdmission.MungedIfAsked | core/FileUploadServer.cpp:239-243 | in every run, a session's chunks are munged if and only if it has asked for that in one of its lists |
| SlotLaws.RequestAdmitted | core/FileUploadServer.cpp:279-297 | for any request of any peer, new, waiting or served: it is served if and only if it names something on offer and fewer slots are in use than there are, where the requester itself counts unless it was waiting; it waits if and only if it names something and they are not, and has been told; a newcomer is served only when nobody waits, if at most one slot is ever vacant while somebody does |
| SlotLaws.StepKeepsFiles | core/FileUploadServer.cpp:142-298 | while only served peers have a file open or about to open, an event ends that if and only if it is a request that overtakes a transfer of its own sender: it finds the slots used up, and a file is open or a notification on its way will open one |
| SlotLaws.OpenFilesKeepToSlots | core/FileUploadServer.cpp:279-298 | so in every run only served peers ever have a file open or about to open, if and only if no request overtakes; and then the open files never exceed the cap |
| SlotLaws.StepKeepsStaffed | core/FileUploadServer.cpp:142-298 | while at most one slot is vacant when somebody waits, an event ends that if and only if it is a served peer's request for nothing on offer, with somebody waiting and a slot vacant |
| SlotLaws.WaitersFindSlotsInUse | core/FileUploadServer.cpp:279-334 | so in every run at most one slot is ever vacant while somebody waits, if and only if there is no such request |
| SlotLaws.SlotsAreCapped | core/FileUploadServer.cpp:279-312 | in every run, however often a session asks, the served peers never exceed the cap; and sessions that send one list each meet both conditions above |
| Overtaking.OpenFilesAreSafe | core/FileUploadServer.cpp:279-298 | in terms of open files alone: at every moment of a run every continuation without a request that overtakes keeps the open files within the cap, if and only if no request of the run overtakes; after one that does, such a continuation opens more files than there are slots |
| SecondRequests.SecondListOverrunsOpenFiles | core/FileUploadServer.cpp:282-293 | a run with one slot in which a second list leaves two files open |
| SecondRequests.SecondListLeavesSlotsVacant | core/FileUploadServer.cpp:282-293 | a run with two slots in which, after a second list, somebody waits and nobody is served |
| SlotLaws.DepartureAdmitsEarliestWaiter | core/FileUploadServer.cpp:155-169 | in every run, when a served peer leaves, the waiting peer accepted earliest gets a slot |
| SlotLaws.ServedUntilGivenUp | core/FileUploadServer.cpp:379-402 | from any moment of any run, a served peer keeps its slot throughout what follows if and only if it neither leaves nor asks again while every slot is in use or for nothing on offer; the end of its files changes nothing |
| SlotLaws.OneSlotServesNobody | core/FileUploadServer.cpp:282-293 | with a cap of one, in every run without a departure, nobody is ever served if and only if no peer on the waiting list asks again for something on offer |
| SecondRequests.AskingAgainJumpsTheQueue | core/FileUploadServer.cpp:282-297 | a run with one slot and no departure in which two peers wait, and the one accepted later is served when it asks again, while the other goes on waiting |
| TransferScript.BeginMovesAlong | core/FileUploadServer.cpp:337-376 | beginning a file sends exactly the next header of the peer's script, whatever has vanished |
| TransferScript.SendNextTidy | core/FileUploadServer.cpp:379-440 | the mutual recursion only ever extends each peer's log along that peer's own script |
| TransferScript.StartNextTidy | core/FileUploadServer.cpp:315-334 | so does admitting a waiting peer |
| TransferScript.FirstListTidy | core/FileUploadServer.cpp:229-298 | a session's one file list puts it at the start of the script of the files it named, after at most one waiting notice |
| TransferScript.ChunksCarryFile | core/FileUploadServer.cpp:385-423 | the chunks of a file, decoded and put together, are its bytes; all but the last are full, and none is empty |
| TransferReceiver.ScriptAnnounces | core/FileUploadServer.cpp:358-370 | a script announces each file that can be opened once, in request order, with its name, size and path |
| TransferReceiver.ChunkAccepted | core/FileDownload.cpp:380-412 | every chunk the server stamps passes the receiver's checksum test and decodes to the bytes that were read |
| TransferReceiver.ReceiveKeepsProgress | core/FileDownload.cpp:332-438 | at any position of a script, the next message keeps the download in step with it, by counting bytes alone |
| TransferReceiver.WholeScriptArrived | core/FileDownload.cpp:536-542 | at the end of a script every openable file is complete, except a trailing empty one, which is still open |
| TransferSystem.StepKeepsInv | core/FileUploadServer.cpp:142-223 | every step of the composed system keeps the end-to-end invariant; one list per session is proved here, not supposed |
| TransferSystem.TransfersAreFaithful | core/FileUploadServer.cpp:204-298 | end to end, every interleaving, any number of peers: what a session has received is at most a waiting notice and then a prefix of the script of its own requests, and every file it reports complete is byte for byte the shared one, in request order |
| TransferSystem.DeliveredMeansComplete | core/FileDownload.cpp:414-438 | once everything sent has arrived, everything obtainable is complete, but for a trailing empty file |
| TransferSystem.QuietMeansDelivered | core/FileUploadServer.cpp:379-440 | in every interleaving, when nothing is under way for a connected download that is not waiting, it has received its whole script: no transfer stops short by itself |
| TransferSystem.HangUpOutcome | core/FileDownload.cpp:217-235 | for every connected download of every run: a hang-up ends well if and only if no file is open and one is complete, however much is missing; it ends well with nothing missing if and only if the whole script has arrived and the last obtainable file is not empty; and it touches no completed file |
| HangUpRuns.FinishedWithEverything | core/FileDownload.cpp:217-235 | a run that ends finished, its one file complete |
| HangUpRuns.FinishedWithAFileMissing | core/FileDownload.cpp:223-231 | a run that ends finished with one of its two files missing, because the peer hung up between them |
| HangUpRuns.TrailingEmptyFileIsLost | core/FileDownload.cpp:225-227 | a run in which everything sent has arrived and the download fails all the same: its one file is empty and still open |
| DownloadScheduling.DownloadManager.constructor | core/DownloadManager.cpp:18-27 | a new manager is empty, with three slots |
| DownloadScheduling.DownloadManager.SetMaxSimultaneousDownloads | core/DownloadManager.h:73-77 | the cap is at least one, and nothing is started or stopped by changing it |
| DownloadScheduling.DownloadManager.CountRunning | core/DownloadManager.cpp:131-142 | the loop counts the listed downloads that are neither idle nor over |
| DownloadScheduling.DownloadManager.FindIndexOf | core/DownloadManager.cpp:276-286 | finds a download's place in the list if and only if it is listed |
| DownloadScheduling.DownloadManager.StartNextQueuedDownload | core/DownloadManager.cpp:145-166 | the start loop, re-entered by the callbacks of the downloads it starts, does what a plain loop without callbacks would do; it terminates on the length of the queue |
| DownloadScheduling.DownloadManager.SetState | core/FileDownload.cpp:554-563 | a change of state calls back into the manager, and the end of a download runs the start loop |
| DownloadScheduling.DownloadManager.DownloadStateChanged | core/DownloadManager.cpp:221-249 | an unlisted download is ignored; a listed one that is over frees its slot |
| DownloadScheduling.DownloadManager.AbortAt | core/DownloadManager.cpp:169-176 | aborting by index, out of range or not |
| DownloadScheduling.DownloadManager.AbortTransfer | core/FileDownload.cpp:162-178 | an abort of a download that is not over makes it failed, calls back and so may start others; of one that is over, nothing |
| DownloadScheduling.DownloadManager.AbortEverything | core/DownloadManager.cpp:206-211 | the abort loop goes over the list once, although every abort may start others |
| DownloadScheduling.DownloadManager.ClearFinishedDownloads | core/DownloadManager.cpp:179-195 | the backward removal loop keeps exactly the unfinished downloads, in order, and touches neither their states nor the queue |
| DownloadScheduling.DownloadManager.RequestDownloads | core/DownloadManager.cpp:99-128 | each reachable sharer becomes one idle, queued download at the end of the list, and then the start loop runs |
| DownloadScheduling.NestedTurn | core/DownloadManager.cpp:146-165 | a turn whose start fails at once and calls back into the loop leaves the outer loop nothing to do differently |
| DownloadScheduling.PumpStartsInOrder | core/DownloadManager.cpp:145-166 | starts happen strictly in queue order: a prefix of the queue is taken, and nobody else's state changes |
| DownloadScheduling.PumpRespectsCap | core/DownloadManager.cpp:148-149 | the start loop never takes the running count past the cap, or past what it was |
| DownloadScheduling.OperationsRespectCap | core/DownloadManager.cpp:99-249 | neither does any operation of the manager |
| DownloadScheduling.WaitingMeansFull | core/DownloadManager.cpp:145-166 | in every run with a constant cap, downloads wait only while every slot is in use |
| DownloadScheduling.StepKeepsInv | core/DownloadManager.cpp:99-249 | list order, queue order, nothing queued is running, and a non-empty queue means something runs: kept by every operation |
| DownloadScheduling.QueuedAreTail | core/DownloadManager.cpp:99-166 | in every run the listed downloads still queued are a tail of the list, so every running one precedes them |
| DownloadScheduling.AbortAllQuiesces | core/DownloadManager.cpp:206-211 | after any run, aborting everything leaves every listed download over and nothing queued, although each abort re-enters the start loop |
| DownloadScheduling.CancelledWhileQueuedIsStarted | core/DownloadManager.cpp:154-165 | a run of two downloads and one slot in which the second, cancelled while it waits, is failed and then connecting |
| DownloadScheduling.ListedTurnsAreStarted | core/DownloadManager.cpp:145-166 | in every run, a waiting download whose turn comes is started if and only if it is still listed, whether or not it was cancelled; one whose peer cannot be reached is over; it keeps its state if it is not listed, and is over if everything is being aborted |
| DownloadScheduling.StartedAtMostOnce | core/DownloadManager.cpp:145-166 | in every run, a download that has left the queue never returns to it, and if it is over too it stays as it is |
| DownloadScheduling.ClearingTakesTheFinished | core/DownloadManager.cpp:179-195 | in every run, clearing takes exactly the downloads that are over off the list, keeps the order, and changes no state |
| DownloadScheduling.CancellingFailsTheOne | core/DownloadManager.cpp:169-176 | in every run, cancelling fails the download with that number in the list unless it is over, and changes no other that is off the queue; a number out of range changes nothing |
| DownloadScheduling.CapIsAsSetLast | core/DownloadManager.h:73-77 | in every run the cap is the one asked for last, and at least one |
| QueryProtocol.ServerConnection.Start | core/ServerConnection.cpp:181-219 | a query stops the previous one, then subscribes and pings, in that order, with the next count; not connected, nothing happens |
| QueryProtocol.ServerConnection.Stop | core/ServerConnection.cpp:222-255 | a stop unsubscribes and jettisons if connected, and clears the results in any case |
| QueryProtocol.ServerConnection.DisconnectFromServer | core/ServerConnection.cpp:85-106 | a disconnect ends the query and clears the results, and sends nothing |
| QueryProtocol.ServerConnection.ConnectToServer | core/ServerConnection.cpp:52-82 | connecting first disconnects, so it ends any query, and then is under way or has failed |
| QueryProtocol.ServerConnection.HandleFileNode | core/ServerConnection.cpp:704-748 | a file node is announced only while a query is active and only if it matches both of its patterns |
| QueryProtocol.ServerConnection.HandleNodeRemoved | core/ServerConnection.cpp:537-544 | a removed file node is taken back whether or not a query is active |
| QueryProtocol.ServerConnection.HandleDataItems | core/ServerConnection.cpp:488-509 | one message: all its removals first, then all its updates |
| QueryProtocol.ServerConnection.Receive | core/ServerConnection.cpp:433-461 | a pong ends the sweep when it answers the newest ping |
| QueryProtocol.QueriesNeverMix | core/ServerConnection.cpp:704-748 | in every run, whatever the server sends from whatever subscription, all results announced since the last clearing match the current query, and there are none without one |
| QueryProtocol.ActiveQueryIsAskedFor | core/ServerConnection.cpp:181-219 | from the events alone: in every run a query is active if and only if one was started with the link up and nothing has ended it since; all results announced match the session text and the file text it was started with, an empty one like a star; and the last commands sent are the subscription for these texts, as firewalled as was set last before, and a ping |
| QueryProtocol.LinkIsAsDialled | core/ServerConnection.cpp:52-106 | in every run the link is being set up or up if and only if a server was dialled that could be reached and nothing has cut it off since, and up if and only if it has answered too |
| QuerySweep.StepKeepsInv | core/ServerConnection.cpp:181-255 | every step of client, server and channels keeps the sweep invariant |
| QuerySweep.PongEndsSweep | core/ServerConnection.cpp:450-461 | in every run a pong reports the sweep finished if and only if it answers the newest ping; with the query still active, every matching node held when the subscription was taken up and not removed since is in the view |
| QuerySweep.JettisonSparesNewQuery | core/ServerConnection.cpp:239-249 | in every run, while a jettison or unsubscription is under way and a query is active, that query's subscription is still behind it: its results cannot be dropped |
| QuerySweep.ViewIsLive | docs/PROTOCOL.md:136-152 | with nothing under way, the view is the matching nodes held now plus what earlier subscriptions left behind and nobody has taken back; it is exact if and only if the latter still match |
| QuerySweep.StaleRepliesDecide | core/ServerConnection.cpp:704-748 | the moment the server takes up a subscription decides, whatever query it replaced: the view is exact at every quiet moment until the user acts again if and only if the replies in flight then, delivered to the view, show nothing but matching nodes that the server holds |
| QuerySweep.QuietStartIsExact | core/ServerConnection.cpp:181-219 | a query started with nothing under way shows, whenever the channels are empty again and whatever happens on the server, exactly the held nodes that match the two texts typed, without those under "fires" for a firewalled client |
| QuerySweep.StaleResultCanLinger | core/ServerConnection.cpp:715-721 | a result of the replaced subscription that matches the new query, and whose node went away in between, stays in the view for good |
| RowIndex.UserKeyInjective | qt/UserListModel.cpp:216-221 | two users never share a key, whatever is in the session IDs |
| RowIndex.ResultKeyInjective | qt/FileResultModel.cpp:308-319 | two results never share a key as long as session IDs hold no newline, whatever is in the file names |
| RowIndex.SessionsCollide | qt/FileResultModel.cpp:314-318 | for two different session IDs there are file names with which they share a key if and only if the connection is the same and one ID goes on after the other with a newline |
| RowIndex.NewlineInSessionCollides | qt/FileResultModel.cpp:314-318 | with a newline in a session ID they can |
| RowIndex.IndexAgrees | qt/FileResultModel.cpp:322-331 | the rebuilt index has exactly the keys present and maps each to its last row |
| RowIndex.IndexFindsEveryRow | qt/FileResultModel.cpp:322-331 | the index finds every row if and only if no two rows share a key |
| ResultTable.FileResultModel.Add | qt/FileResultModel.cpp:153-190 | a batch refreshes the rows the index knows, appends the rest, and leaves index and rows in agreement |
| ResultTable.FileResultModel.RefreshKnown | qt/FileResultModel.cpp:164-175 | the first pass overwrites rows the index knows and collects the others, in order |
| ResultTable.FileResultModel.Append | qt/FileResultModel.cpp:180-189 | the second pass appends row by row and keeps the index in agreement |
| ResultTable.FileResultModel.FindRow | qt/FileResultModel.cpp:322-331 | the index leads to the last row of a key, or nowhere if there is none |
| ResultTable.FileResultModel.RemoveOne | qt/FileResultModel.cpp:193-207 | one removal takes one row and rebuilds the index |
| ResultTable.FileResultModel.KeptRows | qt/FileResultModel.cpp:216-223 | the rows that a removal by session or connection keeps |
| ResultTable.FileResultModel.RemoveResultsFor | qt/FileResultModel.cpp:210-265 | all rows of a session or of a connection go, the others stay in order |
| ResultTable.FileResultModel.RenameSharer | qt/FileResultModel.cpp:268-295 | the in-place loop renames exactly the rows of one session; the index still agrees |
| ResultTable.FileResultModel.RebuildIndex | qt/FileResultModel.cpp:322-331 | the rebuilding loop restores agreement from any index |
| ResultTable.BatchStoresEachEntry | qt/FileResultModel.cpp:159-187 | the two passes over a batch amount to storing its entries under their keys one by one, whatever is repeated |
| ResultTable.BatchKeepsRowsDistinct | qt/FileResultModel.cpp:159-187 | a batch leaves one row per key if and only if that was so before and the batch does not repeat a key new to the table |
| ResultTable.RemovalForgets | qt/FileResultModel.cpp:193-207 | a removal forgets a key if and only if it was not on two rows |
| ResultTable.RemovalByOwner | qt/FileResultModel.cpp:210-265 | a removal by connection takes exactly the rows of that connection, and one by session exactly those of that session on it |
| ResultTable.RowsRefineMap | qt/FileResultModel.cpp:153-265 | in every run without such a batch: one row per key, the index a bijection, and the table what a plain map would hold |
| ResultTable.RepeatLeavesARow | qt/FileResultModel.cpp:164-187 | a node announced twice in one batch and then taken back leaves a row behind |
| ResultTable.RemovalTakesOnlyItsOwn | qt/FileResultModel.cpp:193-207 | a removal takes the row of its own connection, session and file and no other |
| UserMirror.SilentMeansUnchanged | core/ServerConnection.cpp:593-701 | no node changes a user's record without the listener being told |
| UserFields.NodeSetsItsFields | core/ServerConnection.cpp:593-701 | each kind of node sets the fields it carries and no others |
| UserFields.UsersAreAsLastTold | core/ServerConnection.cpp:512-701 | from the node events alone: in every run a user is listed if and only if there has been a node of its own since it was last gone, and each field of it is the one in the last node that carried it since, or blank if none did |
| UserFields.ConnectionIsAsTold | core/ServerConnection.cpp:52-106 | the same of each connection to a user list: its link, and our own session ID as assigned last since the link came up |
| UserMirror.OwnSessionListed | core/ServerConnection.cpp:582-587 | in every run over any connections, from the arrival of our own session ID until the session ends: our own session is listed if and only if it was listed at that moment and no node has taken it off since, and its record does not change |
| UserMirror.OwnNodeBeforeOwnId | core/ServerConnection.cpp:582-587 | and it can be listed: a run in which a node of our own arrives before the ID is known and leaves our own session in the registry and in the table |
| UserMirror.StepMirrors | core/ServerConnection.cpp:409-430 | every event on every connection keeps the rows equal to the registries |
| UserMirror.UserListMirrorsRegistries | qt/MainWindow.cpp:635-720 | after every run over any number of connections the rows are exactly the registries' records, none twice, every lookup finds the current record, and a disconnected connection has no users |
| UserMirror.CallbacksMakeSense | core/UserRegistry.cpp:26-71 | what a listener is told about a session is new, updates, left, over and over, a disconnect starting afresh, and it always adds up to who is there |
| UserMirror.UserListModel.Update | qt/UserListModel.cpp:128-152 | a known user's row is overwritten, a new one is appended and indexed |
| UserMirror.UserListModel.Remove | qt/UserListModel.cpp:155-170 | the row of one user goes and the index is rebuilt |
| UserMirror.UserListModel.KeptRows | qt/UserListModel.cpp:176-181 | the rows that a removal by connection keeps |
| UserMirror.UpdatedRows | qt/UserListModel.cpp:128-152 | an update puts the new record in the place of every row with its key and touches no other |
| RowIndex.RemovedRows | qt/UserListModel.cpp:155-170 | with one row per key, a removal takes exactly the rows with its key |
| UserMirror.UserListModel.RemoveUsersForConnection | qt/UserListModel.cpp:173-190 | the rows of one connection go, the others stay in order |
| UserMirror.UserListModel.RebuildIndex | qt/UserListModel.cpp:232-241 | the rebuilding loop restores agreement from any index |
| UserMirror.ServerConnection.HandleUpdated | core/ServerConnection.cpp:562-590 | which node updates are about a user, and what registry and table make of them |
| UserMirror.ServerConnection.HandleUser | core/ServerConnection.cpp:593-701 | one user node: the record is created or updated, and the listener hears of it if it is new or has changed |
| UserMirror.ServerConnection.HandleRemoved | core/ServerConnection.cpp:512-559 | a session node, or the name node of a session, going away takes the user with it |
| UserMirror.ServerConnection.LoseSession | core/ServerConnection.cpp:409-430 | losing the session empties the registry and, if the connection was not already down, the table |
| UserMirror.ServerConnection.ChangeState | core/ServerConnection.cpp:957-966 | the listener hears of a state only when it changes |
| UserMirror.ServerConnection.Notify | qt/MainWindow.cpp:635-720 | what the listener does to the table on each callback |
| ShareScan.WalkPathsAgree | core/ShareScanner.cpp:158-232 | every file the walk visits, through whatever links, is announced under the path that leads to it, through at most 32 folders, none of them hidden, and is not hidden itself. The walk terminates because of its depth limit |
| WalkOrder.WalkIsExact | core/ShareScanner.cpp:158-232 | the visits are, one for one and in the order of the folders, the ways of at most 33 entries down to a regular file with nothing hidden on them, each with the names on its way and the size at its end |
| WalkOrder.VisitedIfReachable | core/ShareScanner.cpp:158-232 | so a file is visited if and only if there is such a way down to it |
| ShareScan.FirstByNameClaims | core/ShareScanner.cpp:204-216 | keeping the first file of every name keeps every name, once |
| ShareScan.ShareScanner.ScanDirectory | core/ShareScanner.cpp:158-232 | the recursive directory loop, told to stop at any moment, has queued and counted what the visits up to some point, in order, give rise to, and all of them unless it was told to stop |
| ShareScan.ShareScanner.ScanEntry | core/ShareScanner.cpp:177-228 | one directory entry: hidden, gone, special, a folder, or a file whose name is claimed or already taken; a folder may be cut short by a stop |
| ShareScan.ShareScanner.ScanThread | core/ShareScanner.cpp:147-155 | a scan ends with the finish flag raised, stopped or not |
| ShareScan.ShareScanner.TakeDiscoveredFiles | core/ShareScanner.cpp:105-113 | a take swaps the whole queue out |
| ShareScan.ShareScanner.TakeScanFinished | core/ShareScanner.cpp:116-126 | the finish flag is handed over once |
| ShareScan.WalkQueuesFirstOfEachName | core/ShareScanner.cpp:204-228 | a whole walk queues the first file of every name and counts all the others as duplicates |
| ShareScan.ScanConserves | core/ShareScanner.cpp:204-228 | in every interleaving of the two threads: files taken, queued and in flight are, in order, the first of every name visited; their names are the claimed ones; with the duplicates they account for every visit |
| ShareScan.FinishReportedOnce | core/ShareScanner.cpp:116-126 | the end of a scan is reported at most once, and after that one more take gives everything the walk found |
| ShareScan.SharedFilesAreCounted | qt/MainWindow.cpp:941-956 | what is shared is what has been taken, each file under its own name, and the running count is the number of those files |
| ShareScan.AnnouncedCountMayLag | qt/MainWindow.cpp:947-959 | the file count announced at the end is right if and only if nothing was queued between the take and the check |
| ShareScan.CountLags | qt/MainWindow.cpp:947-959 | a run in which the count announced stays at nought while one file is shared |
| ShareScan.LeftoversAreSharedAfterStop | qt/MainWindow.cpp:924-938 | after sharing is switched off, the next look shares exactly what was left in the queue, so nothing if and only if it was empty |
| ShareScan.StopCanLeaveAFile | qt/MainWindow.cpp:924-938 | and it need not be empty |
| BatchPublishing.Publisher.PublishSharedFiles | core/ServerConnection.cpp:292-338 | the batching loop sends exactly the specified messages and counts every file; not connected, it does nothing |
| BatchPublishing.BatchesCarryAll | core/ServerConnection.cpp:292-338 | the messages carry the list in order, all but the last hold fifty entries, none is empty, and there are as few as possible |
| BatchPublishing.BatchingIsTransparent | core/BeShareProtocol.h:29-32 | with distinct names the server ends up with the nodes that publishing one file at a time would give |
| BatchPublishing.EveryTakePublishesDistinctNames | core/ShareScanner.cpp:204-216 | whatever the interleaving, the files one look takes to be published have distinct names |
| RecentList.ApplicationSettings.RememberInList | core/ApplicationSettings.cpp:275-297 | the backward-removal and trimming loops compute the specified list, and no other field changes |
| RecentList.ApplicationSettings.GetStringList | core/ApplicationSettings.cpp:249-261 | reads a field, leaving out empty values |
| RecentList.ApplicationSettings.SetStringList | core/ApplicationSettings.cpp:264-272 | rewrites one field and no other |
| RecentList.ApplicationSettings.Promoted | core/ApplicationSettings.cpp:284-291 | the backward walk removes every spelling of the value, and the value goes in front |
| RecentList.CutBeforeOrAfter | core/ApplicationSettings.cpp:291-294 | cutting the list off before the next value goes in front loses nothing that cutting it off afterwards would keep |
| RecentList.SameInAnyCase | core/ApplicationSettings.cpp:284-289 | two values are spellings of one if and only if they are equally long and differ at most in the case of letters |
| RecentList.StoredListIsRecentHistory | core/ApplicationSettings.cpp:275-297 | after any history the stored list is the history read backwards, without empty values, the newest spelling of each value only, cut off once at the end |
| RecentList.StoredListIsSound | core/ApplicationSettings.cpp:275-297 | never too long, no value twice in any case, nothing that was not in the history, the last value first |
| RateWindow.RateEstimate.AddChunk | core/FileDownload.cpp:425-431 | the trimming loop, reading the clock as it goes, leaves the specified samples |
| RateWindow.RateEstimate.GetBytesPerSecond | core/FileDownload.cpp:181-198 | the estimate in 64-bit words is the exact quotient |
| RateWindow.EstimateIsAverage | core/FileDownload.cpp:181-198 | the estimate is the average since the oldest sample, rounded down, and nought without two samples or any time between |
| RateWindow.EachSampleCounts | core/FileDownload.cpp:193-195 | every sample counts once in the sum |
| RateWindow.OnlyOldSamplesGo | core/FileDownload.cpp:425-431 | the newest sample stays, and if any is dropped then the last one dropped made them more than 32 or was too old when the clock was read |
| RateWindow.NewestSampleStays | core/FileDownload.cpp:425-431 | after every chunk the newest sample is that chunk |
| RateWindow.WindowStaysRecent | core/FileDownload.cpp:425-431 | after every chunk: one to 32 samples in time order, all but a lone one within five seconds of the last reading |
| RateWindow.EstimateNeverWraps | core/FileDownload.cpp:193-197 | for any 32-bit counts nothing wraps in 64 bits and the result is a non-negative 64-bit integer |

## Left out

- Sockets, the MUSCLE threads, message flattening, inflation of file nodes and rate-limit policies: not part of this model; messages are datatypes and the transceiver is an ordered source of events.
- MUSCLE pattern matching and path splitting: patterns are an uninterpreted relation, and a node path arrives as its clauses.
- Real file input and output: a disk is a map from paths to contents; whether directories exist, a file can be created and how much of a write succeeds are parameters.
- Failure of memory allocation and of container inserts: the branches for them are not modelled.
- Widgets, painting, dialogs, notifications, sorting, chat, aliases, filters, logging, MIME types, formatting, settings other than the remembered lists: single-branch facts about strings, or display.
- The result buffer and its timer in the main window: batches are given to the table model as they are flushed; a removal that overtakes its flush is outside the model.
- Display-only fields (peer names, kinds, modification times, capability flags, server names): carried by the program, decided upon by nothing modelled here.
- Grouping of results by sharer and the reachability checks in StartDownloads: a request is the sequence of sharers that passed them.
- Name resolution for chat commands in UserRegistry: a read-only lookup that would only add an easy member.
- Connect-back, resume, byte ranges and bans: documented, not implemented in the program.
- StopListening in the upload server: it forgets all peers at once, after which the server is the initial one.
- TransferSystem.TransfersAreFaithful: supposes that the share table and the shared files stay as they are during the run, because a file that changes under an open transfer is sent as it was opened and announced as it was scanned.
- TransferSystem.DeliveredMeansComplete: does not say that everything is delivered, because neither side hangs up or retries and a peer may stop draining at any time.
- DownloadScheduling.DownloadManager.RequestDownloads: the outcome of each start attempt is fixed when it is queued, because the network is outside the model.
- QuerySweep.PongEndsSweep: ping counts are unbounded, whereas the program's 32-bit counter would wrap after two thousand million queries.
- QuerySweep.ViewIsLive: a name is held under one of a session's two directories at a time, as a client that republishes everything when it changes over keeps it.
- UserMirror.UserListMirrorsRegistries: holds between events, because during a disconnect the registry is emptied before the listener hears of it.
- BatchPublishing.BatchingIsTransparent: for files with distinct names, which every take of the scanner has, because one message holds several values under one name.
- RecentList.StoredListIsRecentHistory: for a field that starts empty, because a settings file edited by hand may hold spellings twice.
