# A model of the MPC ceremony coordinator

This Dafny project models the Phase-2 sequencer of a Groth16 trusted-setup ceremony: a lobby with one
slot, a head that advances by verified contributions, a hash-chained transcript, and a directory from
which a restarted host resumes. It also models the streaming finalizer that consumes that directory, and
the tool that cuts a small structured reference string out of a large powers-of-tau file.

`dafny verify dfyconfig.toml` checks everything.

## How the model is built

| file | contents |
|---|---|
| `Basics.dfy`, `Crypto.dfy` | options and results, int64, blobs, the curve backend, hex |
| `Names.dfy` | `%05d-<hash>.bin` names, string order, sorted listings |
| `Transcripts.dfy`, `Storage.dfy` | the `Transcript` and `LocalStorage` classes and the values they hold |
| `Average.dfy` | the rolling average in int64 nanoseconds |
| `Protocol.dfy` | the sequencer as a state machine over its locked sections |
| `Sequencer.dfy` | the `Sequencer` class: one method a locked section, proved against `Protocol` |
| `Safety.dfy`, `Recovery.dfy` | what survives every failed write, crash and restart |
| `Queue.dfy`, `Timing.dfy`, `Tickets.dfy`, `Joins.dfy` | the lobby over whole runs: order, time, challenges, closing |
| `Identities.dfy` | whose name a session and its entries carry |
| `Restart.dfy` | what a start leaves, and which ceremonies can go on after a death |
| `OneEntry.dfy` | how often one session can write into the transcript |
| `CalmRuns.dfy`, `Finalize.dfy`, `EndToEnd.dfy` | runs whose writes succeed, and the finalizer that follows them |
| `Leftovers.dfy` | blob files that no entry names |
| `Client.dfy` | the participant's retry and heartbeat loops, and what they achieve in a run |
| `Ptau.dfy` | powers-of-tau layout, reading, gates and truncation |

A `World` is the disk, the memory of the running process if there is one, the clock, the uploads and joins
that are between their two locked sections, and a history that no step reads. `Next` performs one
event: any request section, a tick of the expiry loop, the clock moving on, `Close`, a crash, a start. A run
is any list of events each of which is enabled, so every interleaving of overlapping, duplicated and
abandoned requests is a run. A commit carries the fate of each of its three writes: done, failed, or done
and followed by the death of the process. `Blank` is an empty directory with no process; it satisfies every
invariant that the run theorems start from (`EndToEnd.BlankIsFine`, `Leftovers.BlankIsTidy`).

Each `Sequencer` method ends in the state that the `Protocol` function of the same section computes from
the state it found, on the object's fields, its transcript and its store; the run theorems are about those
functions.

## Assumptions

- Hashes do not collide (`Backend.CollisionFree`), and only where the history must be unique also: a
  verified step embeds its predecessor's hash (`Backend.Binding`) and the init head embeds none. Theorems
  that need these require them; `Crypto.AssumptionsAreConsistent` shows they can hold together. The length of
  a digest is left open above the four bytes a name uses, because a fixed length could not be collision-free.
- gnark's step verification is the uninterpreted `stepOK`. Serializing a blob and a transcript is lossless.
- Session tokens and challenges are fresh, the clock does not go back, and a locked section is one atomic
  step that reads the clock once. One process at a time uses a directory.
- A write that fails leaves the old contents. The code truncates the file first, so this is an assumption
  about the file system. A crash in the middle of a write counts as one before or after it.
- `SameRatioMany` and the pairing check are ideal: they compare exponents modulo the group order.

## Where the code does less than one would think

- Any failure to read an existing transcript, not only a missing file, starts the ceremony afresh and
  overwrites it. Receipts survive a run exactly when no such start gets as far as replacing a transcript for
  which receipts are out (`Recovery.ReceiptsPermanent`, `Recovery.CarelessStart`).
- After a death the ceremony can accept another contribution exactly when the durable head is the tail of the
  durable transcript (`Restart.WhoGoesOn`); otherwise it never does again (`Recovery.WedgedForever`). The two
  come to disagree exactly when a head that does not fit is saved without its transcript
  (`Restart.StaysWhole`): by a commit that dies between the two saves or whose `SaveTranscript` fails
  (`Recovery.WhenACrashWedges`, `Recovery.WhenADeathWedges`), or by a start that cannot read the transcript,
  saves the init head and then dies or fails to save the new transcript (`Restart.WhenAStartWedges`).
- A session can have more than one entry exactly because `SaveHead` or `SaveTranscript` failed after its entry
  was appended: it then keeps the slot and can add another (`OneEntry.WhoEntersTwice`,
  `OneEntry.FailedSaveAllowsSecondEntry`); in every other case it cannot, whatever else fails or crashes
  (`OneEntry.AtMostOneEntry`). The comment that the head cannot have moved (`ceremony/sequencer.go:376`) no
  longer holds then: the check in `Append` is what refuses a stale upload (`OneEntry.StaleUploadIsRefused`).
- The directory scan returns the chain exactly when every file is referenced and there are at most 100000
  entries, and exactly then finalizing the directory ends in the transcript's last contribution
  (`EndToEnd.ScanReturnsChain`, `EndToEnd.FinalizeAnyRun`); following the transcript's refs always does
  (`EndToEnd.RefsRebuildChain`). Files stop being referenced exactly when a commit saves its blob but not the
  transcript, which includes uploads that `Append` refuses, or a start replaces a transcript that has files
  (`Leftovers.StaysTidy`, `Leftovers.RefusedUploadLeavesFile`). A blob that a crash left unreferenced can be
  accepted by the finalizer as the last contribution (`EndToEnd.CrashedBlobIsFinalized`).
- A client whose reply was lost after its commit has its contribution recorded, but every retry is refused
  (`Client.RetryAfterReceiptIsRefused`) and its upload loop ends in an error (`Client.UploadSession`). An
  error can also hide an entry whose later writes failed or that a death interrupted (`Client.ErrorWithEntry`).
- A join caught between its sections by `Close` is still enqueued, and never admitted (`Joins.ClosingStopsJoins`).

## Model

| member | source | states |
|---|---|---|
| Safety.AlwaysSound | ceremony/sequencer.go:73-98 | in every run with any failed writes, crashes and restarts, the live and the durable transcript pass Verify, every entry's ref names a stored blob of that entry's hash, and every blob is a verified step from its predecessor |
| Safety.AppendsOnlyAtTail | ceremony/sequencer.go:375-407 | a commit moves the transcript if and only if its upload is verified, holds the slot, was saved and started from the tail blob; otherwise head, transcript and receipts stay, in memory and on disk |
| Safety.CommitFiles | ceremony/sequencer.go:383-397 | for every fate of the writes the blob file is there after a commit if and only if the upload was verified, holds the slot and was saved, whether or not it is then appended; no other file changes |
| Safety.CommitReplies | ceremony/sequencer.go:358-421 | when a commit gives each of its answers, in terms of verification, slot, tail and the fate of each write |
| Safety.BackedDespiteSave | ceremony/sequencer.go:382-396 | saving a blob under an index the transcript has not reached overwrites nothing it refers to and keeps its chain |
| Safety.BackedGrows | ceremony/transcript.go:34-49 | saving a verified step from the tail and appending its entry extends the backed chain by exactly that blob |
| Safety.BackedPrefix | ceremony/sequencer.go:407-415 | an earlier transcript stays backed by the later one's blobs, and its tail reaches the later tail by verified steps |
| Recovery.ReceiptsPermanent | ceremony/sequencer.go:73-98 | through any failed writes, crashes and restarts, every receipt stays in the durable transcript at its index with its hashes and ref, if and only if no start replaces a transcript for which receipts are out |
| Recovery.HeadsStayReachable | ceremony/sequencer.go:73-98 | each head stays reachable from the tail of its transcript if no start that cannot read the transcript stops between its two writes (unless it rewrote the init head of an empty transcript), and, where verified steps embed their predecessor, only then |
| Recovery.CarelessStart | ceremony/sequencer.go:73-98 | a start that cannot read an existing transcript keeps the receipts, and the reachability of the head, under exactly the stated outcomes of its own writes |
| Recovery.WhenADeathWedges | ceremony/sequencer.go:383-415 | in any sound world, for every fate of the writes: what a commit does to the ceremony left by a death in it or right after it: heals it, wedges it, or leaves it as it was |
| Recovery.WhenACrashWedges | ceremony/sequencer.go:408-415 | when durable head and transcript agreed, a death from the commit on leaves the head ahead of the transcript if and only if the commit appended and saved the head, and then died or SaveTranscript failed |
| Recovery.WedgedForever | ceremony/sequencer.go:73-98 | once head and transcript disagree and everything in memory starts from that head, nothing is ever accepted, in any run, with any number of restarts, until a start that cannot read the transcript replaces head or transcript by a matching one |
| Restart.WhoGoesOn | ceremony/sequencer.go:69-105 | in any world with a head and a transcript on disk, if the process dies now and every start can read the transcript, a further contribution can be accepted in some run if and only if the durable head is the tail of the durable transcript |
| Restart.StaysWhole | ceremony/sequencer.go:84-97 | through any failed writes, crashes and restarts, durable head and transcript agree throughout a run if and only if no commit and no start saves a head alone that does not fit the transcript |
| Restart.TornNext | ceremony/sequencer.go:407-415 | for every event and every fate of its writes, when durable head and transcript disagree after it |
| Restart.WhenAStartWedges | ceremony/sequencer.go:84-97 | a start wedges a ceremony that was not if and only if it cannot read the transcript, saves an init head that is not the tail, and does not get as far as replacing the transcript |
| Restart.ResumeOrRefuse | ceremony/sequencer.go:73-82 | a start that finds a readable transcript writes nothing, and yields a process if and only if the stored circuit is the configured one and the head can be read |
| Restart.StartsAfresh | ceremony/sequencer.go:83-98 | any other start saves the init head and then an empty transcript for curve, circuit and init head, yields a process if and only if both are saved, and leaves the blobs |
| Restart.StartsIdle | ceremony/sequencer.go:99-104 | a process that starts has in memory what is on disk, an open lobby with nobody in it, and no challenge on offer |
| Restart.RunsItsCircuit | ceremony/sequencer.go:73-98 | in every run the running process works on a transcript of the circuit given to the start that began it, resumed or fresh |
| Queue.AlwaysInLine | ceremony/sequencer.go:126-143 | in every run the sessions that joined are those admitted, in order, then those queued; the slot holds the last one admitted; an open lobby with a queue has an active slot |
| Queue.PositionCountsDepartures | ceremony/sequencer.go:254-266 | the position reported to the i-th joiner is the number of departures still ahead of it, and -1 after its own |
| Queue.PositionIsExact | ceremony/sequencer.go:268-285 | while open, a session at position p reads p-k after k departures and holds the slot after exactly p of them |
| Queue.NeverAgain | ceremony/sequencer.go:126-143 | a session that was admitted and does not hold the slot never holds it again |
| Queue.AfterClose | ceremony/sequencer.go:108-143 | after Close nobody is admitted, a late join only waits, and at most one more receipt is given, to the session that held the slot |
| Joins.ClosingStopsJoins | ceremony/sequencer.go:108-143 | from the event Close on, in every run of the process, no challenge is consumed, no join is begun, only joins between their sections are still enqueued, nobody is admitted, and at most one more receipt is given, to the session that held the slot |
| Queue.CommitSlot | ceremony/sequencer.go:378-417 | a commit frees the slot exactly when it gives a receipt; otherwise queue, slot, deadline and challenges stay |
| Queue.AtMostOneReceipt | ceremony/sequencer.go:332-422 | in every run a session gets at most one receipt, and never holds the slot again after it |
| Timing.AlwaysTimed | ceremony/sequencer.go:117-143 | in every run the deadline is one slot timeout after the latest promotion, heartbeat or capture |
| Timing.DeadlineNeverShrinks | ceremony/sequencer.go:287-303 | no step moves the deadline of the session in the slot back |
| Timing.OnlyTheHolderExtends | ceremony/sequencer.go:287-344 | the deadline of the session in the slot becomes now plus the slot timeout exactly at its own heartbeat or start of an upload; no event of anybody else moves it |
| Timing.HeartbeatKeepsSlot | ceremony/sequencer.go:287-303 | a holder whose gaps between refreshes never exceed the slot timeout is never expired: it holds the slot or has its receipt |
| Timing.AlwaysBounded | ceremony/sequencer.go:117-133 | with ticks at most d apart, every tenure ends within (refreshes+1)*(slotTimeout+d) |
| Timing.BoundedWaiting | ceremony/sequencer.go:117-143 | with at most r refreshes a session, whoever reads position p holds the slot within p*(r+1)*(slotTimeout+d) |
| Tickets.ChallengesUsedOnce | ceremony/sequencer.go:224-250 | in every run no challenge is consumed twice, each was issued and unexpired when consumed, and sessions map one to one to consumed challenges |
| Tickets.OfferLasts | ceremony/sequencer.go:187-200 | a challenge stays on offer until it is used or expires; pruning takes no other |
| Joins.ChallengeGoodUntil | ceremony/sequencer.go:187-237 | in every run of a process a challenge issued at time t is accepted if and only if the lobby is open, it is unused and t plus challengeTTL has not passed; the join then has its identity, and a refused one changes nothing |
| Joins.OldChallengesRefused | ceremony/sequencer.go:99-104 | a challenge issued before a death is refused in every later run and changes nothing |
| Joins.IssuingPrunes | ceremony/sequencer.go:190-197 | after a challenge is issued, every challenge on offer is unexpired |
| Joins.LostJoinNeverEnters | ceremony/sequencer.go:236-243 | a join whose authentication fails, or that a death cuts off, has lost its challenge: in no later run does a session enter with it |
| Joins.RequestsEndOnce | ceremony/sequencer.go:202-252 | a join or an upload that has ended does not end again in any run that does not begin it anew |
| Identities.SessionsAreAuthenticated | ceremony/sequencer.go:239-250 | in every run, whoever waits, holds the slot, uploads or has a receipt carries the identity that was authenticated in the join that consumed the challenge of the session |
| Identities.EntriesAreAuthenticated | ceremony/sequencer.go:388-392 | in every run, whatever fails, crashes and restarts, every entry of the live and of the durable transcript names the identity authenticated for its contributing session, the hashes of that session's upload and the time of its commit |
| Protocol.Config.WithDefaults | ceremony/sequencer.go:56-61 | a slot timeout that is not positive becomes ten minutes, a challenge lifetime that is not positive five |
| CalmRuns.AlwaysSteady | ceremony/sequencer.go:332-422 | in every run whose writes succeed, with crashes and restarts between commits, head, transcript and files are those the accepted uploads determine, and a captured upload that may still commit started from the head |
| CalmRuns.SlotCheckSuffices | ceremony/sequencer.go:375-421 | in such a world a verified upload whose session holds the slot is appended, saved and acknowledged, without looking at the head |
| CalmRuns.NewHolderHasNoUpload | ceremony/sequencer.go:335-344 | a session new to the slot has no upload in flight |
| CalmRuns.HeadStays | ceremony/sequencer.go:305-319 | when writes succeed the head only moves by a commit that hands the slot over, so it is stable while a session holds it |
| OneEntry.HeadMoves | ceremony/sequencer.go:375-376 | whatever fails, while one session holds the slot the head moves exactly by a commit that appends, and only if its SaveHead or SaveTranscript failed |
| EndToEnd.RunEndsInVerifiedChain | ceremony/storage.go:77-104 | after any run whose writes succeed, up to 100000 contributions, the scan returns exactly the accepted blobs in order, linked by verified steps from the init head to the sequencer's head |
| EndToEnd.ScanReadsTranscript | ceremony/storage.go:77-104 | in every sound world the scan reads the files in the order of the durable transcript if and only if no file is unreferenced and it has at most 100000 entries |
| EndToEnd.ScanReturnsChain | ceremony/storage.go:77-104 | under the same condition, and only then, the scanned blobs are the chain of the durable transcript |
| EndToEnd.ScanLinksToTail | cmd/finalize-stream/main.go:71-86 | under the same condition, and only then, the scanned blobs are linked from the init head and end in the transcript's tail |
| EndToEnd.RefsRebuildChain | ceremony/transcript.go:12-22 | in every sound world following the refs yields stored blobs of the recorded hashes, each a verified step from the one before |
| EndToEnd.CrashLeavesUnreferencedBlob | ceremony/sequencer.go:383-387 | a crash after saving a blob leaves a file that the scan returns and no entry names |
| EndToEnd.FinalizeRun | cmd/finalize-stream/main.go:71-97 | loading and finalizing what such a run left accepts every link and ends in the sequencer's head, unless there is nothing to finalize |
| EndToEnd.FinalizeAnyRun | cmd/finalize-stream/main.go:71-97 | after any run, whatever failed, crashed and restarted, loading and finalizing succeeds and ends in the last contribution of the durable transcript (the durable head, if the two agree) if and only if there is one, every file is referenced and there are at most 100000 |
| EndToEnd.CrashedBlobIsFinalized | ceremony/sequencer.go:382-387 | after a crash right after saving a verified blob the scan ends in that blob and is linked, so the finalizer accepts it although no entry and no receipt names it |
| Leftovers.RefusedUploadLeavesFile | ceremony/sequencer.go:383-397 | a verified upload of the holder that Append refuses leaves its file: the scan returns its blob, neither transcript names it, and the scan is not the chain of the transcript any more |
| Leftovers.TidyNext | ceremony/sequencer.go:383-415 | from a directory whose files are all named by the durable transcript, an event leads to another such if and only if it leaves no file behind: a commit that saves its blob but not the transcript with its entry, or a start that replaces a transcript with files |
| Leftovers.StaysTidy | ceremony/storage.go:77-104 | the same over whole runs, whatever fails, crashes and restarts |
| EndToEnd.RestartTransparent | ceremony/sequencer.go:69-104 | two runs that accepted the same uploads from the same init head leave the same disk, however often either was restarted and whatever init heads it was offered |
| EndToEnd.HeaderFixed | ceremony/sequencer.go:73-98 | through any failed writes, crashes and restarts, init head, init hash, curve and circuit stay those of the first start if and only if no start replaces the transcript by one with another |
| EndToEnd.SameHeadSameCeremony | ceremony/backend.go:77-87 | two ceremonies whose writes succeeded, over one init head and with the same head, accepted the same contributions |
| EndToEnd.TailHashPinsTranscript | ceremony/transcript.go:9-11 | in any run, two transcripts with one init hash and one tail hash record the same contributions |
| OneEntry.AtMostOneEntry | ceremony/sequencer.go:375-417 | in every run from an empty directory, whatever fails, crashes and restarts, the entries of the live and of the durable transcript come from contributions of different sessions, except after a commit of that session in which SaveHead or SaveTranscript failed |
| OneEntry.OnlyUnsavedRepeat | ceremony/sequencer.go:375-417 | in every run, of two commits of one session that appended, SaveHead or SaveTranscript failed in the earlier |
| OneEntry.SlotKept | ceremony/sequencer.go:407-417 | after a commit that appended, its session still holds the slot if and only if SaveHead or SaveTranscript failed |
| OneEntry.WhoEntersTwice | ceremony/sequencer.go:407-417 | a session whose commit appended can append again in some continuation if and only if SaveHead or SaveTranscript failed, as long as its blob can be extended |
| OneEntry.FailedSaveAllowsSecondEntry | ceremony/sequencer.go:408-417 | for every way SaveHead or SaveTranscript can fail after the append: the session adds a second entry in a legal run, both become durable, and there is one receipt for the two |
| OneEntry.StaleUploadIsRefused | ceremony/transcript.go:43-45 | an upload captured by the same session before that failure passes the slot check and is refused by Append if and only if it did not start from the blob just appended |
| EndToEnd.OneEntryAReceipt | ceremony/sequencer.go:375-417 | when writes succeed there is one entry a receipt, and they belong to distinct sessions |
| Crypto.Backend.HeadDeterminesHistory | ceremony/backend.go:77-87 | two verified paths from one unchallenged blob to one head are equal at every position |
| Crypto.HexInvertible | ceremony/sequencer.go:390 | the hex form of a hash determines the hash |
| Names.NameTellsIndex | ceremony/storage.go:70 | a name determines its index, with no bound |
| Names.NameTellsHash | ceremony/storage.go:66-70 | a name ends in a dash, eight hex digits that read back as the first four bytes of the hash, and .bin |
| Names.SameName | ceremony/storage.go:66-70 | two names are equal if and only if their indices and the first four bytes of their hashes are |
| Storage.SavesKeepEachOther | ceremony/storage.go:65-75 | of two different blobs saved one after the other, the second overwrites the first if and only if they have one index and agree in the first four bytes of their hashes |
| Names.NameOrder | ceremony/storage.go:70 | below index 100000 names sort by index, whatever the hashes |
| Names.NameOrderBreaks | ceremony/storage.go:88 | index 100000 sorts before index 99999, whatever the hashes |
| Names.BeforeIff | ceremony/storage.go:88 | one string sorts before another if and only if it is less, or ends, at their first difference |
| Names.ScanIsChain | ceremony/storage.go:78-88 | the sorted listing of a directory is a numbered list of names if and only if it holds just those and they are at most 100000 |
| Average.RollingNeverOverflows | ceremony/sequencer.go:404 | over any list of samples from 1 ns to 2^61-1 ns no update overflows int64, so each is the floor of the exact one |
| Average.RollingStaysClose | ceremony/sequencer.go:399-406 | over any list of such samples the average stays between any bounds on the samples and less than 3 ns below the exact average |
| Timing.AlwaysAveraged | ceremony/sequencer.go:399-406 | in every run the reported average is the rolling average of the times from slot-open to append in the running process, none of which is negative |
| Average.OverflowsBeyond | ceremony/sequencer.go:404 | that bound is tight: two samples of 2^61 ns make the average negative |
| Int64.WrapIsTheCongruent | ceremony/sequencer.go:404 | the int64 that a value wraps around to is the only one congruent to it modulo 2^64 |
| Transcripts.ChainedIsReplayed | ceremony/transcript.go:9-11 | the transcripts that pass Verify are exactly those that Append builds from an empty one |
| Transcripts.AppendKeepsChained | ceremony/transcript.go:34-49 | an accepted append keeps the chain valid |
| Transcripts.Transcript.Append | ceremony/transcript.go:34-49 | accepts exactly entries that start at the tail, renumbers them, and otherwise changes nothing |
| Transcripts.Transcript.Verify | ceremony/transcript.go:52-66 | succeeds exactly on chained transcripts and otherwise names the first broken entry |
| Transcripts.Transcript.Len | ceremony/transcript.go:68-72 | the number of entries |
| Storage.LocalStorage.WriteHead | ceremony/storage.go:51-53 | replaces head.bin, or leaves everything and reports the failure |
| Storage.LocalStorage.WriteBlob | ceremony/storage.go:65-75 | stores the blob under its index and hash and returns that name, or leaves everything |
| Storage.LocalStorage.WriteTranscript | ceremony/storage.go:106-112 | replaces transcript.json, or leaves everything and reports the failure |
| Storage.LocalStorage.LoadChain | ceremony/storage.go:77-104 | returns the blobs of all files in name order, whatever order the directory is read in, and fails exactly when one cannot be read |
| Storage.SortStrings | ceremony/storage.go:88 | returns the one ascending list of the given names |
| Sequencers.Sequencer.NewSequencer | ceremony/sequencer.go:55-105 | resumes from the store or starts afresh, as Protocol.Start says, with the store's new contents |
| Sequencers.Sequencer.Close | ceremony/sequencer.go:108-115 | closes the lobby and changes nothing else |
| Sequencers.Sequencer.PromoteLocked | ceremony/sequencer.go:135-143 | admits the head of the queue when the slot is free and the lobby open |
| Sequencers.Sequencer.ExpiryTick | ceremony/sequencer.go:125-130 | drops an overdue holder and promotes; the head stays |
| Sequencers.Sequencer.PositionLocked | ceremony/sequencer.go:256-266 | the loop finds the position of a session |
| Sequencers.Sequencer.HandleChallenge | ceremony/sequencer.go:187-200 | offers the new challenge and keeps exactly the unexpired old ones |
| Sequencers.Sequencer.BeginJoin | ceremony/sequencer.go:224-237 | consumes a challenge on offer that is unexpired, if the lobby is open, or refuses and changes nothing |
| Sequencers.Sequencer.EndJoin | ceremony/sequencer.go:245-251 | enqueues a session with the fresh token and the accepted identity, promotes, and returns its position |
| Sequencers.Sequencer.HandleStatus | ceremony/sequencer.go:268-285 | reports the position, and the deadline to the holder only |
| Sequencers.Sequencer.HandleHeartbeat | ceremony/sequencer.go:291-303 | moves the deadline for the holder and refuses everyone else |
| Sequencers.Sequencer.HandleHead | ceremony/sequencer.go:305-319 | gives the head to the holder only |
| Sequencers.Sequencer.BeginUpload | ceremony/sequencer.go:335-344 | captures session and head and moves the deadline, for the holder only |
| Sequencers.Sequencer.EndUpload | ceremony/sequencer.go:358-422 | does to fields, transcript and store what Protocol.Commit says, for every way the writes can end |
| Finalize.FinalizeStream | cmd/finalize-stream/main.go:71-94 | accepts if and only if there are blobs, all can be read and each is a verified step from the one before, returns the last, and otherwise names the first file that stops it |
| Client.UploadWithRetry | ceremony/client.go:336-354 | tries at most four times and returns the first receipt, or the fourth error, after pauses of 4, 6 and 8 seconds before the later attempts |
| Client.UploadSession | ceremony/client.go:336-354 | in every run of the sequencer the loop returns a receipt if and only if an attempt was accepted and its reply delivered, and that receipt is on record; if the reply to the accepted attempt was lost, it makes all four attempts and ends in an error, with the contribution on record |
| Client.OneCommit | ceremony/client.go:336-354 | of the uploads of one session in a run, however they overlap, at most one is accepted |
| Client.ErrorWithEntry | ceremony/client.go:336-354 | the session of an upload loop that ended in an error has appended an entry if and only if an attempt appended and then its reply was lost, SaveHead or SaveTranscript failed, or the process died |
| Client.WhereTheEntryIs | ceremony/sequencer.go:394-415 | the entry of an attempt that appended is durable at once if and only if the writes of head and transcript got through, and otherwise at most in memory |
| Client.StartHeartbeat | ceremony/client.go:236-259 | beats at every tick until stopped, whether or not beats are delivered |
| Client.BeatsKeepSlot | ceremony/client.go:236-259 | if at most m beats in a row are lost and the slot timeout outlasts m+1 periods and the lag of a delivered beat, the session is never expired before the loop is stopped: it holds the slot or has its receipt |
| Client.RetryAfterReceiptIsRefused | ceremony/client.go:336-354 | after a receipt, even one whose reply was lost, every retry is refused and changes nothing, in every run |
| Ptau.OffsetsExactIff | cmd/ingest-ptau/main.go:122-143 | for a header of any length the int64 offsets equal the layout's for every element and array end if and only if the length of the file fits int64 |
| Ptau.OffsetsExactUpTo53 | cmd/ingest-ptau/main.go:122-143 | with the default 64-byte header that is so if and only if the power is at most 53 |
| Ptau.Tiling | cmd/ingest-ptau/main.go:10-16 | the five arrays fill 576*N+96 bytes after the header in order without gaps |
| Ptau.RangeInArray | cmd/ingest-ptau/main.go:73-81 | every truncated range lies inside its array and within int64 |
| Ptau.ReadPoints | cmd/ingest-ptau/main.go:189-225 | decodes exactly the points the range holds, and fails exactly when it cannot be opened, ends early or holds an invalid point |
| Ptau.ReadsPrefix | cmd/ingest-ptau/main.go:161-225 | reading m elements of any array of a serialized accumulator yields its first m elements |
| Ptau.Verify | cmd/ingest-ptau/main.go:236-268 | accepts if and only if some tau, alpha and beta generate every entry, and otherwise reports the first gate that fails |
| Ptau.GateIffPowers | cmd/ingest-ptau/main.go:239-266 | the gates hold of exactly the well-formed strings |
| Ptau.TruncationIsSmallerSrs | cmd/ingest-ptau/main.go:17-20 | cutting each array of a string gives the smaller string for the same tau, alpha and beta |
| Ptau.Ingest | cmd/ingest-ptau/main.go:48-105 | returns only well-formed strings of the target power, and returns every such string that the source holds; otherwise it names the bad power, the first array that cannot be read or the first gate that fails |
| Ptau.IngestAccumulator | cmd/ingest-ptau/main.go:48-105 | ingesting a well-formed file, behind a header of any length, yields exactly the string of the target power for the same tau, alpha and beta |
| Ptau.ProbeStaysInside | cmd/ingest-ptau/main.go:274-280 | the probe's 16 elements lie inside the arrays if and only if the source power is at least 4 |

## Left out

- `/info` and `/transcript` only read fields; what they read is the live document and lobby.
- HTTP routing, JSON, status texts, progress bars, logging, flags and wall-clock formatting: a request is the state change it makes and its success.
- Estimated waiting times: they pass through floating-point seconds and only inform.
- Authentication providers: a join is accepted with some identity or rejected.
- The signature field of an entry, which is never set, and the text form of its timestamp.
- Ed25519, SHA-256, gnark's pairings, subgroup checks and Phase 2 sealing: libraries, used through the assumptions above.
- Upload size limits and malformed uploads: they drop the request and change nothing.
- Closing stops the expiry loop; the model lets ticks go on, as a last one may, and no theorem needs them to stop.
- The directory layout of the store: head, transcript and blob files are three parts of one value, so a name cannot clash between them.
- Aliasing of blobs: a blob is a value, so the model does not capture a head changed in place.
- The finalizer's file list comes from the shell; the model takes it in the order of the directory scan.
- readG1 and readG2 are one method, which takes width and decoder from the array it reads.
- The heartbeat ticker's 20 seconds are one value of the period in Client.BeatsKeepSlot; a tick that passes while the last beat still waits for its reply counts as a lost beat there.
- The Phase-1 contribution path, the command-line tools and the demo generator.
