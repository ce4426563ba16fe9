# Verified models of the desktop client's bookkeeping

This project models the parts of the repository that are hard to get right by reading: hand-written codecs, the request
machines inside `ApiWrap`, the update installer, and the shell of bot web apps. Each is written in Dafny and proved
against what the code and its surroundings promise. `dafny verify dfyconfig.toml` checks everything.

Every model follows the branches, constants and error paths of the code it names. Code that changes state is a class
(or an algorithm over arrays) whose methods are proved equal to functions on the abstract state; the properties are then
proved of those functions, for every input or for every run of user calls, timer ticks, replies and failures.

| file | what it models |
|---|---|
| `Fips180.dfy`, `PackerSha1.dfy` | SHA-1 by FIPS 180-4, and the packer's own SHA-1 over arrays |
| `Envelope.dfy` | the update envelope: the packer's writer and the client's reader |
| `LinuxUpdate.dfy` | scanning, planning and copying an update tree, and `mkpath` |
| `UpdateProcess.dfy` | the overflow-checked decimal parser of the Windows updater |
| `Drafts.dfy` | saving cloud drafts |
| `Albums.dfy` | assembling and sending albums |
| `WebPages.dfy` | resolving web pages with temporary negative request ids |
| `MessageData.dfy`, `FileReferences.dfy` | batching of message requests, coalescing of file references |
| `Dialogs.dfy` | loading the lists of dialogs |
| `Forward.dfy` | forwarding in batches with a Stars budget |
| `StickerSets.dfy` | saving sticker sets and their order |
| `CloudPassword.dfy` | reloading the cloud password state |
| `FrameEvents.dfy`, `Ripple.dfy` | event delivery to a web app's frame, the ripple colour |
| `Utf8.dfy` | strict UTF-8 and the transliteration of words |
| `Mesh.dfy` | the `.binobj` and `.obj` converters |
| `Wrappers.dfy`, `Words.dfy`, `Text.dfy` | shared: options, 32-bit words in bytes, splitting and decimal text |

## What the proofs found

- The padding of `hashSha1` is that of FIPS 180-4 exactly for messages below 2^29 bytes, and its digest is SHA-1 for
  those: `len << 3` does not carry into the upper length word. Its loop over blocks ends exactly below 2^32 - 64 bytes.
- `binobj2obj.py` calls a round trip byte-identical. It is exactly when the counts come in whole vectors and triangles
  and every float survives its own printing (a NaN with a payload does not); a float that is left over is always lost.
- A `dialogsNotModified` reply leaves a list of dialogs stuck: its load keeps its request id and is never asked for
  again. A load is stuck exactly if such a reply came to its own list request.
- A web page whose request failed keeps that request's id exactly until it is cleared or stops being pending, however
  often it is requested again, and nothing more is sent for it.
- The delay of a web page is computed in 32-bit milliseconds: an idle timer is set right for a page still to come exactly
  if it is due in at most 2147483 seconds, and for one past due exactly if the cut delay is not positive.
- Forwarding computes the Stars of a batch in 32 bits. A batch pays the right amount exactly if its product is not cut
  below what is left; the total is right exactly if no product is cut, or the cut ones still reach what was approved and
  no run of them up to the last is negative. A batch that is cut can pay a negative amount.
- The success callback of forwarding runs once exactly if every request succeeds, in whatever order the replies come.
- A set handed to `saveStickerSets` as removed, unless it goes along with a removed recent one, stays exactly if it is
  archived or something else shows it. It is then installed exactly if it is in the order too, or was archived and
  installed. (The lists that `boxes/stickers_box.cpp:1092-1101` hands over never share a set.)
- An album's Assert fails exactly when a valid upload answers for a message in the table that was cancelled or has its
  media already, or a message of a waiting album is cancelled a second time.
- The offset of the next slice of dialogs takes its date from the last dated dialog and its message from the last usable
  one; they are the same dialog exactly if the last usable one is dated.
- The destinations of an update are distinct exactly if at most one file of the tree has a name of the binary
  ("LuxuryGram", "Telegram" unless write protected, or that of the running one); otherwise the later one stays.

## Model

| member | source | states |
|---|---|---|
| `PackerSha1.ChooseIsCh` | Telegram/SourceFiles/_other/packer.cpp:109-110 | the disjunction the first twenty rounds use is Ch of section 4.1.1 of FIPS 180-4 |
| `PackerSha1.MajorityIsMaj` | Telegram/SourceFiles/_other/packer.cpp:112 | the disjunction of rounds 40 to 59 is Maj of section 4.1.1 |
| `PackerSha1.PartHash` | Telegram/SourceFiles/_other/packer.cpp:91-123 | the unrolled rounds on the array extended in place compute one block of section 6.1.2, on the words the array held |
| `PackerSha1.FillTail` | Telegram/SourceFiles/_other/packer.cpp:142-148 | clearing and filling byte by byte leaves the tail of the message, a 0x80 byte and zeros, as big-endian words |
| `PackerSha1.StoreLength` | Telegram/SourceFiles/_other/packer.cpp:153 | storing the length in word 15 of a zero-filled block is appending the length field |
| `PackerSha1.PaddedTail` | Telegram/SourceFiles/_other/packer.cpp:142-154 | both endings, at most or more than 56 bytes left, are the last one or two blocks of the padded message |
| `PackerSha1.PaddingIsStandard` | Telegram/SourceFiles/_other/packer.cpp:142-154 | the padding is that of section 5.1.1 if and only if the message is shorter than 2^29 bytes |
| `PackerSha1.WriteDigest` | Telegram/SourceFiles/_other/packer.cpp:156-162 | the loop from byte 19 down writes the five words big-endian and touches nothing after byte 19 |
| `PackerSha1.BlocksEnd` | Telegram/SourceFiles/_other/packer.cpp:132-140 | the loop over whole blocks, with its 32-bit counter, ends if and only if the message is shorter than 2^32 - 64 bytes |
| `PackerSha1.HashSha1` | Telegram/SourceFiles/_other/packer.cpp:127-163 | below 2^29 bytes the digest is SHA-1 as FIPS 180-4 defines it; for every length at which the loop ends, the hash of the packer's own padding |
| `Envelope.BuildV2Envelope` | Telegram/SourceFiles/_other/packer.cpp:287-322 | appending piece by piece gives the layout that the reader is proved to invert |
| `Envelope.DecodeExactly` | Telegram/SourceFiles/core/update_verify.cpp:609-739 | for every byte string and all fields: reading yields them if and only if they respect the limits and the bytes are their encoding |
| `Envelope.DecodedIsCanonical` | Telegram/SourceFiles/core/update_verify.cpp:609-739 | whatever is accepted is the one encoding of what is returned, and the signed region is its prefix |
| `Envelope.EncodeInjective` | Telegram/SourceFiles/_other/packer.cpp:287-322 | different fields never share bytes when every size fits 32 bits |
| `Envelope.ParseEnvelope` | Telegram/SourceFiles/core/update_verify.cpp:609-739 | the reader object, moving its offset, accepts with the client's caps exactly what decodes, and re-encoding gives the input back |
| `Envelope.EmbedSignatures` | Telegram/SourceFiles/_other/packer.cpp:471-556 | given signatures, the result is the envelope with them and all other fields as they were, handed out if and only if the input parses, is unsigned, is of the channel asked for, and the result passes verification |
| `Envelope.EmbeddingKeepsTheRest` | Telegram/SourceFiles/_other/packer.cpp:538-546 | the signed region survives embedding; the client accepts the result if and only if the signatures respect its caps |
| `LinuxUpdate.TdataIsFirst` | Telegram/SourceFiles/_other/updater_linux.cpp:282-283 | the check on the path text holds if and only if the first name below the update folder is tdata |
| `LinuxUpdate.ReadyIsMarker` | Telegram/SourceFiles/_other/updater_linux.cpp:302-303 | a path equals the ready file's if and only if it is the entry "ready" of the new update folder |
| `LinuxUpdate.RenderInjective` | Telegram/SourceFiles/_other/updater_linux.cpp:281 | different entries of the tree have different paths |
| `LinuxUpdate.FilesAre` | Telegram/SourceFiles/_other/updater_linux.cpp:277-311 | the depth-first reference listing holds exactly the regular files below a directory, outside tdata and without the marker |
| `LinuxUpdate.PassesAre` | Telegram/SourceFiles/_other/updater_linux.cpp:271-294 | a tree passes if and only if no entry outside tdata is a directory that does not open or a file that would be the Updater, letter case apart |
| `LinuxUpdate.ReadEntry` | Telegram/SourceFiles/_other/updater_linux.cpp:281-311 | one entry is skipped, queued, planned with its destination, or fails the update, as its name and kind demand |
| `LinuxUpdate.ScanTree` | Telegram/SourceFiles/_other/updater_linux.cpp:255-315 | the breadth-first loop ends, passes if and only if every directory outside tdata opens and no file there is the Updater, and plans a permutation of the depth-first listing |
| `LinuxUpdate.PlanIsExact` | Telegram/SourceFiles/_other/updater_linux.cpp:255-315 | each file and each directory is planned exactly once, with its destination, and a directory after the one it is in |
| `LinuxUpdate.BinaryTarget` | Telegram/SourceFiles/_other/updater_linux.cpp:295-301 | exactly the files with a name of the binary, letter case apart, take the place of the running one; all others keep their names |
| `LinuxUpdate.TargetsMeet` | Telegram/SourceFiles/_other/updater_linux.cpp:295-301 | two different files have the same destination if and only if both have a name of the binary |
| `LinuxUpdate.DestinationsDistinct` | Telegram/SourceFiles/_other/updater_linux.cpp:255-315 | the destinations of the plan of every scan that passed are distinct if and only if at most one planned file of the tree has a name of the binary |
| `LinuxUpdate.TargetsMayMeet` | Telegram/SourceFiles/_other/updater_linux.cpp:295-301 | an input for which two destinations meet: both names of the binary in one folder |
| `LinuxUpdate.MkPath` | Telegram/SourceFiles/_other/updater_linux.cpp:198-218 | cutting the buffer at each slash makes the prefixes in order, up to the first failure, and succeeds if and only if all were made |
| `LinuxUpdate.WantedAre` | Telegram/SourceFiles/_other/updater_linux.cpp:198-218 | what mkpath makes is the path and exactly the parts of it that end before a slash that ends a name |
| `LinuxUpdate.WantedGrow` | Telegram/SourceFiles/_other/updater_linux.cpp:198-218 | a directory is made after those it is in |
| `LinuxUpdate.ForceDirs` | Telegram/SourceFiles/_other/updater_linux.cpp:317-325 | directories are forced in order; no file is touched |
| `LinuxUpdate.CopyFile` | Telegram/SourceFiles/_other/updater_linux.cpp:327-366 | a file counts as copied if and only if the old one went and one of the first 30 tries succeeded; the log is its removal and the tries up to that success, or all it tried when it gave up |
| `LinuxUpdate.CopyFileMeans` | Telegram/SourceFiles/_other/updater_linux.cpp:327-366 | what is at a destination is removed first and nothing is tried if that fails; then the tries follow their outcomes up to the first success, thirty at most |
| `LinuxUpdate.CopyFiles` | Telegram/SourceFiles/_other/updater_linux.cpp:327-366 | succeeds if and only if every file can be copied; the log is that of the files in order, up to and with the tries of the first that cannot be |
| `LinuxUpdate.Update` | Telegram/SourceFiles/_other/updater_linux.cpp:239-371 | nothing is touched unless the scan passed, no file unless all directories were made; success if and only if every step succeeded; once the directories are made the log is theirs and that of the copies, also on failure |
| `LinuxUpdate.SuccessCopiesAll` | Telegram/SourceFiles/_other/updater_linux.cpp:327-371 | an update that succeeds copied each planned file to its destination, once, in order |
| `LinuxUpdate.LastFileStays` | Telegram/SourceFiles/_other/updater_linux.cpp:327-371 | after success a destination holds the last file planned for it |
| `UpdateProcess.ParsePositiveInteger` | Telegram/SourceFiles/_other/updater_win.cpp:106-119 | accepts if and only if the text is digits with a value from 1 to 2^64 - 1, returns that value, and no step overflows |
| `UpdateProcess.Process.Parse` | Telegram/SourceFiles/_other/updater_win.cpp:123-138 | accepts exactly the pairs whose first value fits 32 bits, and changes nothing when it refuses |
| `Drafts.EditsAreNotLost` | Telegram/SourceFiles/apiwrap.cpp:2254-2267 | in every run a thread edited after its last sent draft is unsent with the timer armed, or in flight and marked as changed; an outstanding request is the one its entry names; no save sends more than two |
| `Drafts.QuietMeansSent` | Telegram/SourceFiles/apiwrap.cpp:2585-2763 | with nothing outstanding and the timer idle every living thread has sent its last edit, or is excused by an event that skipped it |
| `Drafts.ExcusedWereSkipped` | Telegram/SourceFiles/apiwrap.cpp:2254-2257 | in every run a thread is excused only if an earlier event said that its draft is skipped or does not serialize |
| `Drafts.TicksSend` | Telegram/SourceFiles/apiwrap.cpp:2720-2763 | in every run, when the timer fires or quitting is checked, each living unsent thread that is not skipped and serializes has its last edit on the wire, saves in flight are left alone and entries of dead threads go |
| `Drafts.RepliesAct` | Telegram/SourceFiles/apiwrap.cpp:2655-2705 | in every run an edit leaves its thread unsent with the timer armed or marks the save in flight; a reply ends its save, re-queuing a thread edited meanwhile, but the first file reference error is followed by the same draft once more |
| `Drafts.VersionsCountEdits` | Telegram/SourceFiles/apiwrap.cpp:2254-2267 | the version of a draft is the number of edits made |
| `Drafts.StepKeeps` | Telegram/SourceFiles/apiwrap.cpp:2500-2763 | every edit, tick, quit check, reply, file reference retry and death keeps what the two theorems need |
| `Drafts.SendAgainCounts` | Telegram/SourceFiles/apiwrap.cpp:2685-2705 | the retry with a fresh file reference is the second and last request of its save |
| `Drafts.NothingToCancel` | Telegram/SourceFiles/apiwrap.cpp:2585-2589 | saving an unsent entry never cancels a request in flight of its own thread |
| `Drafts.DraftSaves.SaveDraftToCloudDelayed` | Telegram/SourceFiles/apiwrap.cpp:2254-2267 | refines the edit step: one entry is queued or marked and the timer runs |
| `Drafts.DraftSaves.SaveDraftsToCloud` | Telegram/SourceFiles/apiwrap.cpp:2720-2763 | the loop that erases and sends while it goes has, in whatever order, the effect of handling each entry once, which `Drafts.TicksSend` describes |
| `Drafts.DraftSaves.OnDone` | Telegram/SourceFiles/apiwrap.cpp:2655-2684 | refines the reply step, re-queuing a thread that changed meanwhile |
| `Drafts.DraftSaves.OnFail` | Telegram/SourceFiles/apiwrap.cpp:2685-2704 | refines the failure step: only a first file reference error is retried |
| `Drafts.DraftSaves.OnRefreshed` | Telegram/SourceFiles/apiwrap.cpp:2690-2700 | refines the retry, or the end of the save when the message no longer serializes |
| `Albums.AssertsFailExactly` | Telegram/SourceFiles/apiwrap.cpp:5782-5813 | in every run an Assert has failed if and only if a valid upload answered for a message in the table that was cancelled or had its media, or a message of a registered album was cancelled twice |
| `Albums.UploadCrashes` | Telegram/SourceFiles/apiwrap.cpp:5782-5795 | an arriving upload fails an Assert if and only if its message was cancelled or has its media already |
| `Albums.CancelCrashes` | Telegram/SourceFiles/apiwrap.cpp:5797-5813 | a cancellation fails an Assert if and only if the album is registered and the message was cancelled already |
| `Albums.GroupsAreSentOnce` | Telegram/SourceFiles/apiwrap.cpp:5815-5944 | in every run, whatever is cancelled or uploaded twice, a group is sent at most once, and a send carries exactly the items not cancelled by then, in order, with their media |
| `Albums.AlbumsGoRight` | Telegram/SourceFiles/apiwrap.cpp:5782-5944 | in every run the album an upload or a cancellation touches is sent, forgotten or kept waiting as its remaining items, their media, the messages in the table and the mode say: paid if and only if priced, in parts if and only if ephemeral, alone if and only if one item remains, as an album if and only if two or more; only the two that are answered stay registered; no other event sends |
| `Albums.AlbumsComeAndGo` | Telegram/SourceFiles/apiwrap.cpp:5467-5541 | what starting, uploading, cancelling, disappearing and replying do to the table, the history and the registered albums |
| `Albums.DisciplinedRunsAreSafe` | Telegram/SourceFiles/apiwrap.cpp:5782-5944 | no Assert fails in a run where cancelling takes the message out of the table and no message is uploaded again |
| `Albums.CancelledMessageMustLeave` | Telegram/SourceFiles/apiwrap.cpp:5797-5813 | an input that fails: a cancelled message stays in the table and its upload answers |
| `Albums.UploadsMustBeSingle` | Telegram/SourceFiles/apiwrap.cpp:5782-5795 | an input that fails: a message's upload completes twice |
| `Albums.ReadyAlbumsGo` | Telegram/SourceFiles/apiwrap.cpp:5815-5870 | in every run whose local id callback does not refuse, no album that has all its media is left unsent |
| `Albums.SendsAreKept` | Telegram/SourceFiles/apiwrap.cpp:5815-5944 | sends are only ever added, so "at most once" is over the whole run |
| `Albums.StepKeeps` | Telegram/SourceFiles/apiwrap.cpp:5467-5541 | every start, upload, cancellation, disappearance and reply, disciplined or not, keeps the album equal to what remains of its group, and fails an Assert exactly in the two cases |
| `Albums.AlbumSender.SendAlbumIfReady` | Telegram/SourceFiles/apiwrap.cpp:5815-5944 | the loop over the items sends if and only if all have media and one still exists, one of four ways |
| `Albums.AlbumSender.SendAlbumWithUploaded` | Telegram/SourceFiles/apiwrap.cpp:5782-5795 | refines the arrival of one item's media, with its Asserts |
| `Albums.AlbumSender.SendAlbumWithCancelled` | Telegram/SourceFiles/apiwrap.cpp:5797-5813 | refines the removal of one item; an unknown album is left alone |
| `WebPages.IndicesAreBijective` | Telegram/SourceFiles/apiwrap.cpp:2845-2864 | although the table is sorted by channel, the indices are a bijection onto 0..n-1 |
| `WebPages.LookupsAreRight` | Telegram/SourceFiles/apiwrap.cpp:2893-2905 | every lookup by index is in range and finds the request of the page's own channel; -1 stands for a request that was sent |
| `WebPages.ResolveTags` | Telegram/SourceFiles/apiwrap.cpp:2833-2909 | a due page ends up with a request of this call that asks for its message at its destination; every other page keeps its number |
| `WebPages.ResolveAsks` | Telegram/SourceFiles/apiwrap.cpp:2866-2892 | a request asks for at least one message, and exactly for those of the pages that carry it, in order |
| `WebPages.ResolveSplits` | Telegram/SourceFiles/apiwrap.cpp:2866-2892 | no two requests of a call go to the same channel |
| `WebPages.PagesWait` | Telegram/SourceFiles/apiwrap.cpp:2810-2909 | in every run no temporary number is left, a numbered page waits for a request that asks for its message, and another for the timer, unless the last tick found its time come and no message that shows it |
| `WebPages.TicksSetTimer` | Telegram/SourceFiles/apiwrap.cpp:2839-2908 | in every run, when the timer fires it is set again if and only if a page not asked for is still to come, to the time of the nearest one but a day at most |
| `WebPages.PagesComeAndGo` | Telegram/SourceFiles/apiwrap.cpp:2810-2831 | which pages are looked up, pending and failed after each request, clearing, change, answer and failure |
| `WebPages.AnswerRemovesItsPages` | Telegram/SourceFiles/apiwrap.cpp:3187-3205 | an answer takes out exactly the pages that carry its request, failing those still pending |
| `WebPages.FailedPagesStay` | Telegram/SourceFiles/apiwrap.cpp:2866-2892 | after a failed request its pages keep the number in every further run if and only if they are not cleared and do not stop being pending |
| `WebPages.FailedPageIsNotAskedAgain` | Telegram/SourceFiles/apiwrap.cpp:2833-2909 | a run in which a page is requested, its request fails, it is requested again and the timer fires, and nothing is sent |
| `WebPages.DelayIsRight` | Telegram/SourceFiles/apiwrap.cpp:2815-2818 | with milliseconds cut to 32 bits an idle timer is set right if and only if the page is due in at most 2147483 seconds, or past due by a time whose cut is not positive; a running one is handled right within that distance |
| `WebPages.DelayCanBeCut` | Telegram/SourceFiles/apiwrap.cpp:2815-2818 | a page due in 2147484 seconds sets the idle timer to one millisecond |
| `WebPages.WebPageResolver.ResolveWebPages` | Telegram/SourceFiles/apiwrap.cpp:2833-2909 | the two passes with temporary numbers have the effect the theorems are about |
| `WebPages.WebPageResolver.RequestWebPageDelayed` | Telegram/SourceFiles/apiwrap.cpp:2810-2819 | refines the request: one entry a page, and the timer set when it is idle or the page is due no later |
| `WebPages.WebPageResolver.ClearWebPageRequest` | Telegram/SourceFiles/apiwrap.cpp:2821-2826 | refines taking one page out; the timer stops when none is left |
| `WebPages.WebPageResolver.GotWebPages` | Telegram/SourceFiles/apiwrap.cpp:3187-3205 | erasing in place while failing pages leaves exactly the other entries |
| `MessageData.EveryCallbackOnce` | Telegram/SourceFiles/apiwrap.cpp:737-858 | in every run an entry without a number has a resolve scheduled, one with a number a request that asks for its message; a request asks for exactly its messages; a callback was called once or waits once, where it was registered |
| `MessageData.RequestsJoin` | Telegram/SourceFiles/apiwrap.cpp:737-750 | in every run asking for a message makes its entry or joins it with the callback last, and schedules a resolve if and only if the message is not asked for yet |
| `MessageData.ResolvesAsk` | Telegram/SourceFiles/apiwrap.cpp:782-836 | in every run the scheduled call asks, for each table, by one new request for exactly the messages not asked for, leaving callbacks and earlier requests as they were |
| `MessageData.AnswersTakeOut` | Telegram/SourceFiles/apiwrap.cpp:838-868 | in every run an answer takes out exactly the entries that carry its request |
| `MessageData.AnswerCalls` | Telegram/SourceFiles/apiwrap.cpp:838-868 | an answer calls exactly the callbacks that waited for its messages |
| `MessageData.QuietMeansCalled` | Telegram/SourceFiles/apiwrap.cpp:737-868 | with nothing scheduled or in flight every callback was called |
| `MessageData.MessageDataRequests.RequestMessageData` | Telegram/SourceFiles/apiwrap.cpp:737-750 | refines joining the entry of a message, scheduling a resolve only for one not asked yet |
| `MessageData.MessageDataRequests.ResolveMessageDatas` | Telegram/SourceFiles/apiwrap.cpp:782-836 | refines one request for each table that has something to ask, whatever the order of the channels |
| `MessageData.MessageDataRequests.FinalizeMessageDataRequest` | Telegram/SourceFiles/apiwrap.cpp:838-868 | refines taking out the entries of a request, then calling all their callbacks |
| `FileReferences.EveryHandlerOnce` | Telegram/SourceFiles/apiwrap.cpp:2912-2997 | in every run no Assert fails, an origin is in the table if and only if one request for it is in flight, and a handler was called once or waits, once, for exactly one origin |
| `FileReferences.HandlersJoin` | Telegram/SourceFiles/apiwrap.cpp:2912-2997 | in every run a handler that asks joins those of its origin at the end, and a request goes out if and only if none waited; the additional one joins only a list just started; one that cannot be asked for is told at once |
| `FileReferences.AnswerCalls` | Telegram/SourceFiles/apiwrap.cpp:2942-2961 | in every run an answer calls exactly the handlers that wait for its origin, each for the first time, and leaves those of other origins waiting |
| `FileReferences.QuietMeansCalled` | Telegram/SourceFiles/apiwrap.cpp:2912-2962 | with nothing in flight every handler was called |
| `FileReferences.FileReferenceRequests.RefreshFileReference` | Telegram/SourceFiles/apiwrap.cpp:2975-2997 | refines asking, with an additional handler only for a list just started |
| `FileReferences.FileReferenceRequests.OnAnswer` | Telegram/SourceFiles/apiwrap.cpp:2942-2961 | refines taking the handlers out before calling each |
| `Dialogs.LoadsAreSound` | Telegram/SourceFiles/apiwrap.cpp:1012-1091 | in every run the fail handler finds its load, a load has at most one list and one pinned request in flight, each load is announced once if gone and not yet if there, and one with its list waits for its pinned dialogs |
| `Dialogs.DropsWhenComplete` | Telegram/SourceFiles/apiwrap.cpp:1182-1214 | a load is dropped, and its end announced, by exactly the answer that brings the part it misses |
| `Dialogs.NotModifiedSticks` | Telegram/SourceFiles/apiwrap.cpp:1044-1049 | after a not-modified reply a load never ends and is never asked for again, in every further run |
| `Dialogs.OnlyNotModifiedSticks` | Telegram/SourceFiles/apiwrap.cpp:1019-1091 | in every run a load is stuck if and only if such a reply came to its own list request; any other that waits for its list has the request it names in flight |
| `Dialogs.MainMayStick` | Telegram/SourceFiles/apiwrap.cpp:1044-1049 | an input that fails: the first request for the main list gets that reply |
| `Dialogs.OffsetMayMixDialogs` | Telegram/SourceFiles/apiwrap.cpp:1126-1172 | a slice of two dialogs whose offset has the date of the first and the message of the second |
| `Dialogs.OffsetIsOfOneDialog` | Telegram/SourceFiles/apiwrap.cpp:1126-1172 | there is a next offset if and only if a dialog is dated; date and message are of one dialog if and only if the last usable one is dated |
| `Dialogs.OffsetParts` | Telegram/SourceFiles/apiwrap.cpp:1126-1166 | the offset has the date of the last dated dialog and the message and peer of the last usable one |
| `Dialogs.RequestsGoOn` | Telegram/SourceFiles/apiwrap.cpp:1019-1172 | in every run a load is at the offset of the last slice that answered it, through failures, pinned answers and unblocking, and each list request in flight carries it, as a first load if and only if there was no such slice |
| `Dialogs.SlicesGoOn` | Telegram/SourceFiles/apiwrap.cpp:1043-1123 | in every run a slice of the main list that is not the last is followed by the request from its offset, unless exceptions come first or the offset has come down to the date that blocks |
| `Dialogs.AskingGoes` | Telegram/SourceFiles/apiwrap.cpp:1012-1091 | in every run asking for a list sends one request from where its load is, with the pinned dialogs asked for, if and only if there is a load, it names no request and the date does not block |
| `Dialogs.AskingMoreGoes` | Telegram/SourceFiles/apiwrap.cpp:1105-1123 | the same for what is asked for next, the main list while it is loading or else a needed archive |
| `Dialogs.UnblockingGoes` | Telegram/SourceFiles/apiwrap.cpp:1248-1258 | in every run unblocking moves the date below the offset and asks on from there unless the offset is still at the new date |
| `Dialogs.FindOffset` | Telegram/SourceFiles/apiwrap.cpp:1126-1159 | the nested loops from the end compute that offset |
| `Dialogs.StepKeeps` | Telegram/SourceFiles/apiwrap.cpp:1012-1258 | every request, reply, failure, pinned answer and unblocking keeps the loads and the requests in flight consistent |
| `Dialogs.DialogsLoader.RequestMoreDialogs` | Telegram/SourceFiles/apiwrap.cpp:1019-1091 | refines asking for a slice unless one is asked for or the date blocks it, and for the pinned dialogs |
| `Dialogs.ReloadsAreSound` | Telegram/SourceFiles/apiwrap.cpp:1216-1246 | in every run at most one reload of a list's pinned dialogs is in flight, and exactly those lists are remembered |
| `Dialogs.ReloadRemembers` | Telegram/SourceFiles/apiwrap.cpp:1216-1223 | asking to reload leaves one reload of that list in flight, the one that was there or a new one |
| `Dialogs.DialogsLoader.RequestMoreBlockedByDateDialogs` | Telegram/SourceFiles/apiwrap.cpp:1248-1258 | refines moving the date that blocks, and asking again |
| `Dialogs.DialogsLoader.RequestMoreDialogsIfNeeded` | Telegram/SourceFiles/apiwrap.cpp:1105-1123 | refines what is asked for next: the exceptions first, then the main list, then a needed archive |
| `Dialogs.DialogsLoader.UpdateDialogsOffset` | Telegram/SourceFiles/apiwrap.cpp:1125-1172 | refines moving on to the next slice, or taking the list as received |
| `Dialogs.DialogsLoader.OnListDone` | Telegram/SourceFiles/apiwrap.cpp:1043-1083 | refines the three kinds of reply and what is asked for next |
| `Dialogs.DialogsLoader.OnPinnedAnswer` | Telegram/SourceFiles/apiwrap.cpp:1201-1246 | refines the end of a pinned request, be it done or failed |
| `Forward.OneWayToCut` | Telegram/SourceFiles/apiwrap.cpp:4271-4312 | a sequence can be cut into maximal runs of one kind in one way only, so the batches are determined |
| `Forward.CollectForwardRanges` | Telegram/SourceFiles/history/history_item_helpers.cpp:676-695 | the ranges are the maximal runs by flag of the items that can be forwarded |
| `Forward.KeptAre` | Telegram/SourceFiles/history/history_item_helpers.cpp:676-695 | what is forwarded is all but the ephemeral items without an id, in order |
| `Forward.ForwardMessages` | Telegram/SourceFiles/apiwrap.cpp:4022-4312 | the batches are the maximal runs by flag and source peer, name both, and pay in turn; with nothing to forward the callback runs at once, otherwise the shared count is the number of batches and the callback runs once if and only if all of them succeed |
| `Forward.ForwardRange` | Telegram/SourceFiles/apiwrap.cpp:4273-4311 | sending whenever the source changes, and at the end of a range, keeps the cut maximal |
| `Forward.StarsAreRight` | Telegram/SourceFiles/apiwrap.cpp:4172-4184 | each batch pays the smaller of what is left and its items times the price, if and only if no product is cut to 32 bits below what is left |
| `Forward.TotalIsRight` | Telegram/SourceFiles/apiwrap.cpp:4172-4184 | the total is the smaller of what was approved and all items times the price, if and only if no product is cut to 32 bits, or the cut products reach what was approved and no run of them up to the last is negative |
| `Forward.StarsCanOverflow` | Telegram/SourceFiles/apiwrap.cpp:4172-4184 | two items at the highest price pay a negative number of Stars |
| `Forward.OnceIfOpen` | Telegram/SourceFiles/apiwrap.cpp:4083-4092 | when all succeed, in any interleaving, the callback runs once if and only if no reply settles everything sent before the last one |
| `Forward.RunsIfAllSucceed` | Telegram/SourceFiles/apiwrap.cpp:4083-4092 | when replies follow all sends the callback runs once if every batch succeeds and never otherwise |
| `StickerSets.OrderIsRestricted` | Telegram/SourceFiles/apiwrap.cpp:1918-1966 | afterwards the order is the given one restricted to the sets that are still there, and holds each of those |
| `StickerSets.InstalledMeansOrdered` | Telegram/SourceFiles/apiwrap.cpp:1905-1953 | a set of the type that is not archived is installed if and only if it is in the order; an ordered one is archived only if it was also to be removed |
| `StickerSets.PurgeLeavesOrdered` | Telegram/SourceFiles/apiwrap.cpp:1954-1966 | the purge never takes a set of the order |
| `StickerSets.OthersAreKept` | Telegram/SourceFiles/apiwrap.cpp:1905-1966 | a set that is neither removed nor ordered, and does not go along with a removed recent one, changes only by the installed flag of its type, and goes if and only if then nothing holds it |
| `StickerSets.RemovedSets` | Telegram/SourceFiles/apiwrap.cpp:1859-1966 | for every order and every list of removals: a removed set stays if and only if it was archived or something else shows it, and it does not go along with a removed recent one; it is archived if and only if it was, and installed if and only if it is in the order too, or was archived and installed |
| `StickerSets.InstallsAreNeeded` | Telegram/SourceFiles/apiwrap.cpp:1918-1946 | exactly the archived sets of the order that are not to be removed are installed by a request |
| `StickerSets.UninstallsSent` | Telegram/SourceFiles/apiwrap.cpp:1859-1887 | exactly the removed sets that are there and not archived are uninstalled by a request, but for those that went along with another before their turn |
| `StickerSets.OrderGoesLast` | Telegram/SourceFiles/apiwrap.cpp:1747-1801 | in every run of calls and answers an order goes out only when all requests of its call were answered, at most once a call, and has gone out once the last call has none open |
| `StickerSets.CallSends` | Telegram/SourceFiles/apiwrap.cpp:1731-2004 | a save leaves nothing of older calls in flight and one open request for each install or uninstall it sends; its order goes out at once if and only if there is none and it has two sets or more |
| `StickerSets.AnswersSendOrder` | Telegram/SourceFiles/apiwrap.cpp:1790-1800 | in every run the last answer to the requests of a save, and no other, sends its order |
| `StickerSets.RecentLosesRemoved` | Telegram/SourceFiles/apiwrap.cpp:1823-1869 | recent stickers lose exactly those of the removed sets that were there, or all when a special recent set is removed |
| `StickerSets.RecentIsCleared` | Telegram/SourceFiles/apiwrap.cpp:1823-1857 | the recent stickers, or those attached, are cleared by a request if and only if their special set is removed |
| `StickerSets.InstallDates` | Telegram/SourceFiles/apiwrap.cpp:1859-1953 | a set keeps its install date, loses it when taken out, and gets the current one when it is ordered without one |
| `StickerSets.OlderCallsAreCancelled` | Telegram/SourceFiles/apiwrap.cpp:1747-1752 | only requests of the last call are in flight, and no reorder while one of them is open |
| `StickerSets.StickerSaver.SaveStickerSets` | Telegram/SourceFiles/apiwrap.cpp:1731-2004 | the loops over the lists and the table, erasing in place, have the effect the theorems are about, and leave in flight what `StickerSets.CallSends` says |
| `StickerSets.StickerSaver.OnAnswer` | Telegram/SourceFiles/apiwrap.cpp:1790-1800 | refines the answer to a request: the last one sends the order |
| `CloudPassword.EveryCallbackOnce` | Telegram/SourceFiles/api/api_cloud_password.cpp:36-93 | in every run, with callbacks calling back in and late replies, never two requests are in flight, a waiting callback has one, and every callback is called exactly once, in order |
| `CloudPassword.RepliesAct` | Telegram/SourceFiles/api/api_cloud_password.cpp:45-93 | in every run the reply to the reload in flight calls exactly the waiting callbacks, in order, each with its own result; those that come meanwhile wait on; the other reply reloads, a late one does nothing |
| `CloudPassword.CurrentIsLast` | Telegram/SourceFiles/api/api_cloud_password.cpp:36-43 | in every run the state is that of the last reload answered with one |
| `CloudPassword.CallsAct` | Telegram/SourceFiles/api/api_cloud_password.cpp:45-93 | in every run a reload keeps its callback and leaves a request in flight, a new one only if there was none; clearing leaves the request that cancels in flight and no other |
| `CloudPassword.StepKeeps` | Telegram/SourceFiles/api/api_cloud_password.cpp:45-93 | every call and reply keeps that |
| `CloudPassword.CloudPassword.OnPassword` | Telegram/SourceFiles/api/api_cloud_password.cpp:54-72 | refines a reply: the queue is taken before any callback runs, and a stale reply does nothing |
| `CloudPassword.CloudPassword.ClearUnconfirmedPassword` | Telegram/SourceFiles/api/api_cloud_password.cpp:76-93 | refines cancelling the reload before the other request goes out |
| `FrameEvents.DeliveryInEveryRun` | Telegram/Resources/bot_webview_shell_html/page.js:132-162 | in every run an event is delivered to the generation it was posted in, in order and once; a loaded frame has an empty buffer; the buffer is exactly the newest 64 posted since the frame last stopped being loaded, or was created |
| `FrameEvents.EveryEventCounts` | Telegram/Resources/bot_webview_shell_html/page.js:132-207 | in every run each event posted to a frame that can be reached, since it was created, was delivered, or waits, or was pushed out by more than 64 waiting ones, and only one of these |
| `FrameEvents.UnreachableGetsNothing` | Telegram/Resources/bot_webview_shell_html/page.js:132-146 | nothing is delivered to a frame without a usable origin |
| `FrameEvents.ActionsAct` | Telegram/Resources/bot_webview_shell_html/page.js:148-207 | what each action does to the frame, and that every post is remembered in the generation it was made in |
| `FrameEvents.LoadDelivers` | Telegram/Resources/bot_webview_shell_html/page.js:200-207 | a load delivers exactly the newest 64 waiting events in order |
| `FrameEvents.BufferKeepsNewest` | Telegram/Resources/bot_webview_shell_html/page.js:148-162 | dropping from the front after each post keeps exactly the newest |
| `FrameEvents.Shell.PostToFrame` | Telegram/Resources/bot_webview_shell_html/page.js:148-162 | refines a post, with its loop that drops the oldest |
| `FrameEvents.Shell.FlushPendingEvents` | Telegram/Resources/bot_webview_shell_html/page.js:200-207 | refines the flush, which skips events of other generations |
| `FrameEvents.Shell.CreateIframe` | Telegram/Resources/bot_webview_shell_html/page.js:874-910 | refines a new generation that forgets what waited |
| `Ripple.NextColorIsScaled` | Telegram/Resources/bot_webview_shell_html/page.js:284-338 | the way through hue, saturation and value, in all six sectors, is multiplying each channel by one factor, or grey from black |
| `Ripple.HueAndSaturationStay` | Telegram/Resources/bot_webview_shell_html/page.js:284-338 | hue and saturation are those of the input |
| `Ripple.ValueMoves` | Telegram/Resources/bot_webview_shell_html/page.js:284-338 | the value moves by exactly 32, and every channel before rounding is within 0..255 |
| `Ripple.RippleText` | Telegram/Resources/bot_webview_shell_html/page.js:284-338 | the result is a colour exactly for #rrggbb inputs, and its channels are the whole numbers nearest to the scaled ones |
| `Ripple.RoundIsNearest` | Telegram/Resources/bot_webview_shell_html/page.js:277-282 | rounding yields the one whole number within half, the upper of two |
| `Utf8.ChecksAreGrammar` | Telegram/SourceFiles/_other/zxcvbn_translit.cpp:51-61 | the checks after the loop refuse exactly the second bytes that section 4 of RFC 3629 excludes |
| `Utf8.DecodeUtf8` | Telegram/SourceFiles/_other/zxcvbn_translit.cpp:24-63 | decodes exactly the characters of the grammar and rejects everything else |
| `Utf8.EncodeThenDecode` | Telegram/SourceFiles/_other/zxcvbn_translit.cpp:24-63 | every scalar value is decoded from its encoding |
| `Utf8.DecodeThenEncode` | Telegram/SourceFiles/_other/zxcvbn_translit.cpp:24-63 | every accepted sequence is the encoding of what it decodes to |
| `Utf8.PointsExactly` | Telegram/SourceFiles/_other/zxcvbn_translit.cpp:65-85 | a whole word decodes to given scalar values if and only if it is their encoding |
| `Utf8.MapWord` | Telegram/SourceFiles/_other/zxcvbn_translit.cpp:65-85 | succeeds if and only if the whole word decodes, every point maps, and the images are two characters or more together |
| `Utf8.MappedExactly` | Telegram/SourceFiles/_other/zxcvbn_translit.cpp:65-85 | a word that spells given scalar values maps if and only if each of them does, and then to their images in order |
| `Utf8.MappedPoints` | Telegram/SourceFiles/ui/passcode_strength_translit.cpp:15-50 | exactly ASCII and the Cyrillic letters of the table map, letter case apart |
| `Mesh.DecodeExactly` | Telegram/cmake/binobj2obj.py:34-55 | the reader accepts exactly the encodings and returns what was encoded |
| `Mesh.RoundTripExactly` | Telegram/cmake/obj2binobj.py:35-69 | printing and reading back gives the same bytes if and only if the counts come in whole vectors and triangles and every float survives its own text |
| `Mesh.FilesThatChange` | Telegram/cmake/binobj2obj.py:15 | files that do change, for every float: one left over is lost, and three equal ones survive if and only if that float survives its own text |
| `Mesh.FanTriangles` | Telegram/cmake/obj2binobj.py:56-58 | a face of n corners becomes n - 2 triangles that share its first corner |
| `Mesh.OneTriangle` | Telegram/cmake/binobj2obj.py:57-80 | the exact text of one triangle: tags, spaces, indices from one, zero for none |
| `Mesh.CornersMayBeShort` | Telegram/cmake/obj2binobj.py:47-54 | fields left out or left off stand for no index |
| `Mesh.ReadBinobj` | Telegram/cmake/binobj2obj.py:34-55 | moving the offset through the blocks decodes, and trailing or missing bytes are refused |
| `Mesh.PrintObj` | Telegram/cmake/binobj2obj.py:57-80 | the printing loops produce the lines the reader is proved to invert |
| `Mesh.ReadObj` | Telegram/cmake/obj2binobj.py:35-58 | the lists grown line by line are what the lines mean |
| `Mesh.WriteBinobj` | Telegram/cmake/obj2binobj.py:60-69 | writes the encoding, or fails exactly when a count or an index does not fit 32 bits |

## Left out

- MTProto, TL parsing and the data stores: replies and lookups are inputs of the steps.
- Windows, boxes, tray and other user interface code; thin request wrappers without state of their own.
- LZMA, OpenSSL, the signing of manifests and their checks: signatures and payloads are opaque bytes.
- Real file systems: the update tree is a finite tree, and whether a directory opens or is made, a file is removed or a copy succeeds is an input; clearing the update folder itself is not modelled.
- Drafts: the direct save of the current draft, which overwrites the entry, and what is guaranteed at quit; a thread is taken to own its cloud draft.
- Albums: replacing a local id by a server id while an album waits, the caption that moves to the next item, and the Stars an album pays.
- WebPages: what a reply changes in a page is a separate step before its answer; points in time are unbounded here, and the overflow of the delay, undefined in the source's language, is taken to wrap around.
- Dialogs: requestContacts and preloading of shortcuts, and what applying the dialogs changes elsewhere.
- Forward.ForwardMessages: the two early returns that hand the call over to LuxuryForward (apiwrap.cpp:4028-4046) are not modelled; the contract is about calls that go past them.
- Forward: sorting itself (the order by position is an input), saved music, which is sent as documents, and the local messages made while sending; a Stars balance beyond 32 bits is undefined in the source.
- StickerSets: which files are written, the ids of clear-recent requests, and what a failed reorder reloads.
- FrameEvents: the control message that asks a frame to reload, and a frame without a content window.
- Ripple: real numbers stand for floating point.
- Mesh: how a float is printed and parsed is a parameter; underscores and non-ASCII digits that Python's int accepts are not part of the text model.
- PackerSha1.HashSha1: lengths from 2^32 - 64 on, where the block counter wraps around.
- The registry, COM and process parts of the Windows updater, and files that change while the Linux updater copies them.
