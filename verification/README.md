# Verification of microjs8's protocol core

A Dafny model of the parts of microjs8 that decide what goes on the air and what
is believed of what comes off it, with proofs about every run of them.

- **Checksums** (`Bits`, `Crc`, `Checksum`): the table-driven CRC-16/KERMIT as long
  division by the generator of ITU-T V.41 section 2, its base-41 text, and which
  texts verify.
- **Receive reassembly** (`Reassembly`, `Assembler`, `ReassemblyRuns`,
  `ReassemblyLaws`, `Fates`, `TimeoutReports`, `Fragments`, `PlainWords`,
  `Histories`, `Grammar`, `MailCredits`): the buffers as an insertion-ordered dict,
  one step for each frame and sweep, an object that takes those steps in place, what
  becomes of every buffer, and laws of whole runs.
- **Transmit pipeline** (`Outbound`, `Transmit`, `Scheduler`, `TransmitRuns` to
  `TransmitProgress`, `TransmitDuties`): the queue, cache, worker, transmitter and
  scheduler as objects, and a transition system in which the application, the
  worker's three steps, the scheduler's four steps and restarts interleave in any
  order. `Effect` says what a step can do to the transmission in progress; the
  invariants are proved effect by effect. What must not happen is in `TransmitLaws`,
  what must happen in `TransmitDuties`.
- **On top of it** (`Slots`, `TwoStations`, `Answering`, `Mailbox`, `HeldMail`): slot
  timing, two whole stations that hear and answer each other, and mail held for
  others.
- **Audio and grid** (`Playback`, `Capture`, `Grid`): the audio callback, the capture
  ring and Maidenhead squares against simple specifications.

`Text` and `Sequences` hold what the others share. Time, the radio's answers, the
safety gate and the choice among rows enqueued at the same instant are parameters;
the encoder is a function from text to a non-empty list of frames, or nothing.

Where the code and its comments disagree, the model follows the code:

- the offset bucket is 10 Hz wide (`src/microjs8/protocol/reassembly.py:124`, against `:55`);
- a buffered starter discards what its key held, and does not emit it
  (`src/microjs8/protocol/reassembly.py:390-394`);
- a preempted buffered message is marked as checked
  (`src/microjs8/protocol/reassembly.py:778`, against `:180-183`);
- the purge at startup covers ALLCALL and HEARTBEAT, but not kind CQ
  (`src/microjs8/tx/queue.py:519-522`);
- frames at any offset silence the timeout reports of failed messages
  (`src/microjs8/protocol/reassembly.py:426`, against `:39-43`);
- a directed frame to a callsign in CQ, an ACK included, is taken for a CQ call
  (`src/microjs8/protocol/grammar.py:85-91`, against `:34`);
- the ACK timeout runs from the start of a burst (`src/microjs8/tx/queue.py:539-546`).

## Model

| member | source | states |
|---|---|---|
| `Crc.BuildTable` | src/microjs8/protocol/checksum.py:69-83 | the 256 entries are each index shifted out bit by bit |
| `Crc.Crc16Kermit` | src/microjs8/protocol/checksum.py:86-100 | the table-driven loop computes the bit-serial CRC-16/KERMIT of the bytes |
| `Crc.CrcIsRemainder` | src/microjs8/protocol/checksum.py:63-100 | that CRC is the remainder of long division of the message, least significant bit first, by the generator x^16+x^12+x^5+1 of ITU-T V.41 section 2 |
| `Crc.SerialIsLinear` | src/microjs8/protocol/checksum.py:86-100 | the register is linear in the message: errors travel independently of the data |
| `Crc.BurstChangesCrc` | src/microjs8/protocol/checksum.py:86-100 | two equally long messages that differ only within 16 consecutive bits have different CRCs |
| `Checksum.PackRoundTrip` | src/microjs8/protocol/checksum.py:103-123 | three base-41 characters give back the low 16 bits of any number |
| `Checksum.AlphabetMembers` | src/microjs8/protocol/checksum.py:60-61 | the characters with a digit value are exactly those of the alphabet |
| `Checksum.VerifyExactly` | src/microjs8/protocol/checksum.py:144-197 | a text verifies as a body if and only if, right-stripped, it is that non-empty body, a space and its checksum |
| `Checksum.ChecksumDivides` | src/microjs8/protocol/checksum.py:126-141 | the three characters of a text's checksum stand for the remainder of the bits of its Latin-1 codes, least significant first and followed by sixteen zeros, by that generator |
| `Checksum.ChecksumRoundTrip` | src/microjs8/protocol/checksum.py:126-197 | every non-empty body sent with its checksum verifies as itself |
| `Checksum.BurstChangesChecksum` | src/microjs8/protocol/checksum.py:103-141 | bodies whose bits differ within 16 consecutive places get different checksum texts |
| `Checksum.BurstRejected` | src/microjs8/protocol/checksum.py:144-197 | a body hit by such an error no longer verifies against the checksum it was sent with |
| `Assembler.MessageAssembler.constructor` | src/microjs8/protocol/reassembly.py:356-372 | starts with no buffers |
| `Assembler.MessageAssembler.Feed` | src/microjs8/protocol/reassembly.py:374-484 | one frame changes the insertion-ordered buffers, and emits, exactly as the assembly step says: evictions first, then starter, preemption or continuation |
| `Assembler.MessageAssembler.StartBuffered` | src/microjs8/protocol/reassembly.py:529-693 | a buffered starter replaces its key's buffer, or completes a one-frame message |
| `Assembler.MessageAssembler.StartNonBuffered` | src/microjs8/protocol/reassembly.py:695-803 | a non-buffered starter hands over whatever its key held and starts anew |
| `Assembler.MessageAssembler.Continue` | src/microjs8/protocol/reassembly.py:805-957 | a continuation extends the most recently started buffer in reach, and completes it on a checksum or an end mark |
| `Assembler.MessageAssembler.EvictStaleNonBuffered` | src/microjs8/protocol/reassembly.py:959-993 | timed-out non-buffered buffers are emitted in order and removed; the rest keep their order |
| `Assembler.MessageAssembler.EvictStaleBuffered` | src/microjs8/protocol/reassembly.py:995-1016 | timed-out buffered buffers are removed without a message |
| `Assembler.MessageAssembler.EvictStale` | src/microjs8/protocol/reassembly.py:1018-1048 | timed-out buffered buffers are removed and reported as failed |
| `Assembler.MessageAssembler.SweepCompleted` | src/microjs8/protocol/reassembly.py:486-502 | hands over exactly the timed-out non-buffered messages |
| `Assembler.MessageAssembler.SweepTimeouts` | src/microjs8/protocol/reassembly.py:504-514 | reports exactly the timed-out buffered messages |
| `ReassemblyRuns.StepWellFormed` | src/microjs8/protocol/reassembly.py:529-957 | after every step keys are distinct, agree with their buffer's fields, and hold the bucket of its last raw offset |
| `ReassemblyRuns.NonInterference` | src/microjs8/protocol/reassembly.py:374-484 | over any run closed by a sweep, the messages handed over for a set of audio offsets are those of hearing only the frames there, whatever is heard elsewhere and however often the buffers are swept |
| `ReassemblyRuns.ProcessInside` | src/microjs8/protocol/reassembly.py:805-844 | a frame at one of the offsets acts only on the buffers there |
| `ReassemblyRuns.ProcessOutside` | src/microjs8/protocol/reassembly.py:695-957 | a frame at another offset leaves those buffers as they are and emits nothing of theirs |
| `ReassemblyLaws.SameBucketIsNear` | src/microjs8/protocol/reassembly.py:124-132 | two offsets in one 10 Hz bucket differ by at most 10 Hz |
| `ReassemblyLaws.BucketIsNearest` | src/microjs8/protocol/reassembly.py:234-241 | the bucket is the nearest multiple of 10 Hz, halfway the multiple of 20 Hz |
| `ReassemblyLaws.RawCheckIsRedundant` | src/microjs8/protocol/reassembly.py:835-839 | so the 15 Hz check on raw offsets rejects nothing that the bucket accepts |
| `ReassemblyLaws.StepInStartOrder` | src/microjs8/protocol/reassembly.py:529-803 | with a clock that never runs backwards, insertion order stays start order |
| `ReassemblyLaws.SweepOldestFirst` | src/microjs8/protocol/reassembly.py:1018-1048 | so failed messages are reported oldest first |
| `Fates.ContinuationFate` | src/microjs8/protocol/reassembly.py:805-957 | by the buffers' own fields: a continuation goes to the live buffer of its bucket that started last, the earliest inserted among equals, and to no other; its text is joined on, with the space lost between a number and a word; it comes out if it verifies, or unchecked with an end mark, and all other live buffers stay |
| `Fates.NewestExists` | src/microjs8/protocol/reassembly.py:835-846 | where any live buffer is in reach one of them is that newest one |
| `Fates.StrayFate` | src/microjs8/protocol/reassembly.py:840-842 | a continuation with none in reach changes nothing |
| `Fates.StarterFate` | src/microjs8/protocol/reassembly.py:529-693 | a buffered starter discards what its key held and is complete by itself if its text verifies, or is bare QUERY MSGS, or names one letter; otherwise it begins a buffer |
| `Fates.WordsFate` | src/microjs8/protocol/reassembly.py:695-803 | other directed words and directed heartbeats hand over what their key held, buffered or not, and begin a new buffer |
| `Fates.SweepFate` | src/microjs8/protocol/reassembly.py:959-1048 | a sweep hands over exactly the non-buffered messages silent for longer than their timeout, and reports exactly the buffered ones silent for longer than theirs |
| `Fates.WholeComesOut` | src/microjs8/protocol/reassembly.py:959-993 | so does any frame hand over those messages |
| `Fates.LostIff` | src/microjs8/protocol/reassembly.py:390-426 | a buffer goes without a message if and only if a frame finds it failed or a buffered starter finds it at its key |
| `ReassemblyLaws.UnprovenIff` | src/microjs8/protocol/reassembly.py:554-664 | a buffered message comes out as checked with neither a checksum behind it nor the form of a bare QUERY MSGS or QUERY MSG <id> if and only if a non-buffered starter finds it unfinished under its key and it does not have that form by chance |
| `ReassemblyLaws.UnprovenRunIff` | src/microjs8/protocol/reassembly.py:766-785 | over whole runs, sweeps included, and for any messages of interest: one is handed over unproven if and only if one is preempted so |
| `ReassemblyLaws.AckOnlyOnProof` | src/microjs8/protocol/reassembly.py:921-955 | so a MSG or MSG TO: is acknowledged without its checksum in exactly the runs in which unfinished mail is preempted |
| `ReassemblyLaws.PreemptedComesOut` | src/microjs8/protocol/reassembly.py:766-785 | a preempted buffered message does come out, marked as checked |
| `Fragments.CutOffMailIsAcknowledged` | src/microjs8/protocol/reassembly.py:766-785 | a cut-off MSG followed by any other words of the same station is handed over as checked mail |
| `Fragments.CutOffMailHappens` | src/microjs8/protocol/reassembly.py:766-785 | concrete frames for which that happens: "MSG HI" and then "73" |
| `ReassemblyLaws.AckFramesAreInert` | src/microjs8/protocol/reassembly.py:374-484 | an ACK frame starts and extends nothing, and what comes out with it is never acknowledged |
| `TimeoutReports.FeedSilencesTimeouts` | src/microjs8/protocol/reassembly.py:426-426 | after any frame at any offset a timeout sweep has nothing left to report |
| `TimeoutReports.ReportedIff` | src/microjs8/protocol/reassembly.py:504-514 | in every run, a message that has failed by timeout is reported if and only if a timeout sweep comes before the next frame, at any offset |
| `ReassemblyLaws.StepConserves` | src/microjs8/protocol/reassembly.py:529-1048 | frames taken in by a step are in emitted messages, in buffers, or in lost buffers |
| `ReassemblyLaws.RunConserves` | src/microjs8/protocol/reassembly.py:529-1048 | over whole runs, starters and continuations taken in equal the frame counts emitted, in flight and lost |
| `Fragments.SentFrames` | src/microjs8/protocol/reassembly.py:547-575 | nothing comes out before some prefix of the frames verifies, and then exactly that |
| `Fragments.SendingMakes` | src/microjs8/protocol/reassembly.py:854-938 | the frames of one body make one message, of the first chunks that verify |
| `Fragments.FragmentationRoundTrip` | src/microjs8/protocol/reassembly.py:854-938 | with any traffic at other offsets, a body split into any frames at one offset comes back once and whole if and only if no proper prefix of the frames happens to verify |
| `PlainWords.WordsRoundTrip` | src/microjs8/protocol/reassembly.py:695-912 | with any traffic at other offsets, a message without a buffered verb, in any frames at one offset, is handed over once, whole and in order by a sweep after its timeout, and by none before |
| `Histories.RunRecounts` | src/microjs8/protocol/reassembly.py:862-912 | over every run, each buffer's text is the in-order text of its own frames, and so, under its own key, is that of each message that comes out: completed, preempted, evicted, swept or reported; one-frame messages are their frame's text |
| `Histories.BufferedWeave` | src/microjs8/protocol/reassembly.py:862-912 | for buffered messages that is plain concatenation |
| `Histories.WeaveLength` | src/microjs8/protocol/reassembly.py:862-912 | each join adds at most one character |
| `MailCredits.OneAnswerAnEvent` | src/microjs8/app.py:1542-1548 | of the messages that one frame or sweep hands over at most one is acknowledged, and none with an ACK frame |
| `MailCredits.RunCredits` | src/microjs8/protocol/reassembly.py:529-957 | over every run, mail to be acknowledged and mail left unfinished are together no more than the mail unfinished before and the mail begun: nothing is acknowledged twice |
| `Grammar.MailIsClassified` | src/microjs8/protocol/grammar.py:272-314 | the kind given to a directed frame never keeps mail from reassembly: it begins a mail buffer if and only if its text starts with MSG TO: or the word MSG |
| `Grammar.VerbIff` | src/microjs8/protocol/reassembly.py:244-328 | a directed frame begins a buffered message with a verb and a text if and only if its body opens with that verb, in any case, and with no longer one |
| `Grammar.QueryIff` | src/microjs8/protocol/reassembly.py:141-150 | a query names a letter in exactly the forms MSG <id> and MSG ID <id>, with at most one more word |
| `Grammar.QueryNames` | src/microjs8/protocol/reassembly.py:636-660 | "MSG <id>" after QUERY names a letter, with at most one more word |
| `Grammar.QueryNamesId` | src/microjs8/protocol/reassembly.py:636-660 | and so does "MSG ID <id>" |
| `Grammar.KindIff` | src/microjs8/protocol/grammar.py:272-314 | the kind of a directed frame by its first word and last character |
| `Outbound.OutboundQueue.Insert` | src/microjs8/tx/queue.py:289-324 | a row is accepted if and only if fewer than QUEUE_DEPTH are unfinished, under an id never used before |
| `Outbound.OutboundQueue.Enqueue` | src/microjs8/tx/queue.py:256-324 | accepted rows start QUEUED |
| `Outbound.OutboundQueue.EnqueueForEncoding` | src/microjs8/tx/queue.py:326-392 | accepted rows start ENCODING |
| `Outbound.OutboundQueue.PickNext` | src/microjs8/tx/queue.py:396-410 | returns a QUEUED row enqueued no later than any other, or none if there is none |
| `Outbound.OutboundQueue.PickNextEncoding` | src/microjs8/tx/queue.py:414-429 | the same for ENCODING rows |
| `Outbound.OutboundQueue.MarkEncoded` | src/microjs8/tx/queue.py:431-445 | only an ENCODING row becomes QUEUED |
| `Outbound.OutboundQueue.Recover` | src/microjs8/app.py:1211-1240 | startup recovery: unfinished ALLCALL and HEARTBEAT rows go, QUEUED ones are encoded again, SENDING ones are abandoned |
| `Outbound.OutboundQueue.PurgeStaleBroadcasts` | src/microjs8/tx/queue.py:478-537 | deletes exactly the unfinished ALLCALL and HEARTBEAT rows |
| `Outbound.OutboundQueue.RecordAck` | src/microjs8/tx/queue.py:611-635 | settles one row awaiting an ACK from that caller that was sent last, if there is any |
| `Outbound.MoveKeepsAttempts` | src/microjs8/tx/queue.py:539-582 | along the row state machine attempts stay within bounds and finished rows are not revived |
| `Outbound.InfersDirected` | src/microjs8/tx/queue.py:102-204 | a text of a call, a verb and anything is taken to expect an ACK if and only if the verb is MSG and the call is not a group's |
| `Outbound.RestartLeaves` | src/microjs8/app.py:1211-1240 | what a restart leaves of each row, by kind and state: unfinished ALLCALL and HEARTBEAT rows go, QUEUED becomes ENCODING, SENDING becomes ABANDONED, all else stays |
| `Scheduler.EncodeWorker.Tick` | src/microjs8/tx/encode_worker.py:229-275 | the oldest ENCODING row is cached and queued, or given up if its text does not encode |
| `Scheduler.Transmitter.StartBurst` | src/microjs8/tx/tx_backend.py:318-359 | keys PTT if and only if it succeeds |
| `Scheduler.Transmitter.EndBurst` | src/microjs8/tx/tx_backend.py:512-537 | releases PTT; does nothing outside a burst |
| `Scheduler.TxScheduler.ProcessAckTimeouts` | src/microjs8/tx/scheduler.py:838-875 | every timed-out row is queued again or abandoned by its attempts, and the retried ones are the result |
| `Scheduler.TxScheduler.CheckBurstWatchdog` | src/microjs8/tx/scheduler.py:621-700 | exactly the overdue transmissions are ended, their rows abandoned, their audio dropped, and PTT released |
| `Scheduler.TxScheduler.PickForThisSlot` | src/microjs8/tx/scheduler.py:765-826 | a live transmission comes first; otherwise the oldest QUEUED row, unless held back |
| `Scheduler.TxScheduler.FailMessage` | src/microjs8/tx/scheduler.py:713-763 | after a failure the row is queued again or, after three attempts, abandoned and its audio dropped |
| `Scheduler.TxScheduler.OpenBurst` | src/microjs8/tx/scheduler.py:423-491 | cached or freshly encoded frames start a burst with a deadline of 20 s a frame; the failures of encoding and of keying |
| `Scheduler.TxScheduler.SendFrame` | src/microjs8/tx/scheduler.py:493-601 | a frame's success or failure and its effect on burst, PTT, row and cache |
| `Scheduler.TxScheduler.Tick` | src/microjs8/tx/scheduler.py:346-619 | a whole slot equals the composition of the specified steps; it never starts a burst while PTT is keyed nor sends a frame without it |
| `Scheduler.CoherentLives` | src/microjs8/tx/scheduler.py:792-813 | in a coherent state the branches that drop a transmission without releasing PTT are not taken |
| `TransmitRuns.StepFollows` | src/microjs8/tx/queue.py:431-635 | every step moves every row along its state machine or not at all |
| `TransmitEffects.StepEffect` | src/microjs8/tx/scheduler.py:346-619 | each step has one of nine effects on transmission and air |
| `TransmitLaws.InvKept` | src/microjs8/tx/scheduler.py:346-875 | every step of application, worker and scheduler, and every restart, keeps the invariant |
| `TransmitLaws.ReachableInv` | src/microjs8/tx/scheduler.py:284-314 | so it holds in every reachable state |
| `TransmitLaws.WholeBurstSafety` | src/microjs8/tx/scheduler.py:493-601 | a row is WAIT_ACK or DELIVERED only after one unbroken transmission of all the frames of its text, one in each of consecutive slots, PTT keyed throughout and nothing else in between |
| `TransmitLaws.AirtimeBound` | src/microjs8/tx/scheduler.py:713-763 | over all runs and restarts a message is keyed at most three times, sends at most three times its frames, and is never keyed more often than its attempts say |
| `TransmitLaws.PttAgrees` | src/microjs8/tx/scheduler.py:474-547 | PTT is keyed if and only if one transmission is in progress; its row is the only SENDING one; every frame went out under the PTT of its own row |
| `TransmitLaws.FramesAreTheText` | src/microjs8/tx/scheduler.py:423-457 | every frame about to be sent is the encoder's for the row's text |
| `TransmitLaws.CacheMissIff` | src/microjs8/tx/scheduler.py:423-457 | a QUEUED row is uncached if and only if it bypassed the worker or awaited its ACK at the last restart |
| `TransmitLaws.NeverEncodedLate` | src/microjs8/tx/encode_worker.py:260-269 | in runs without those, every QUEUED row is cached, even between the worker's two writes |
| `TransmitLaws.CacheIsBounded` | src/microjs8/tx/scheduler.py:702-711 | cached audio belongs to unfinished rows, bar one ACK being settled; at most three rows are unfinished |
| `TransmitLaws.NoStaleBroadcast` | src/microjs8/tx/queue.py:478-537 | no ALLCALL or HEARTBEAT message from before a restart is sent after it |
| `TransmitLaws.FinishedForever` | src/microjs8/tx/queue.py:555-582 | no run changes a DELIVERED or ABANDONED row |
| `TransmitLaws.WatchdogNeedsAGap` | src/microjs8/tx/scheduler.py:621-652 | unless the clock stepped back as the burst began, its watchdog fires only if two of its rounds were more than 20 s apart |
| `TransmitLaws.NewBurstsAreGated` | src/microjs8/tx/scheduler.py:388-421 | a burst begins only with gate and keying in order, PTT free, for the oldest QUEUED row, and not for one retried in the same slot |
| `TransmitLaws.AckTimeoutIff` | src/microjs8/tx/scheduler.py:838-875 | a row leaves WAIT_ACK in a sweep if and only if its last attempt began more than 90 s before |
| `TransmitDuties.HeadIsAttempted` | src/microjs8/tx/scheduler.py:388-491 | in every reachable state, with no burst in progress and the gate open, the head of the queue that was not retried in the slot is attempted: it is keyed with its first frame on the air and a deadline of 20 s a frame if and only if its text encodes and PTT can be keyed, and the two failures leave what they should |
| `TransmitDuties.HeadGoesOut` | src/microjs8/tx/scheduler.py:346-491 | over a slot, with any steps of application and worker in between, the head of the queue is on the air in that slot unless the slot's own sweep retried it |
| `TransmitDuties.NothingDue` | src/microjs8/tx/scheduler.py:765-826 | otherwise nothing happens |
| `TransmitDuties.BurstGoesOn` | src/microjs8/tx/scheduler.py:765-826 | a transmission in progress sends its next frame whatever the gate and the queue say |
| `TransmitDuties.FrameEnds` | src/microjs8/tx/scheduler.py:493-601 | what the end or failure of a frame does to burst, PTT, row and cached audio |
| `TransmitDuties.MailAwaitsAck` | src/microjs8/tx/scheduler.py:555-601 | after its last frame a row waits for its ACK with its audio kept if and only if it is DIRECTED, its verb is MSG and its call no group's; otherwise it is DELIVERED |
| `TransmitDuties.BurstIsSent` | src/microjs8/tx/scheduler.py:493-601 | a transmission that no failing frame, restart or overdue watchdog round disturbs goes out whole and in one piece, under any interleaving |
| `TransmitDuties.WatchdogIff` | src/microjs8/tx/scheduler.py:621-700 | the watchdog ends a transmission if and only if its deadline has passed |
| `TransmitDuties.AckSettles` | src/microjs8/tx/queue.py:611-635 | an ACK settles a row that waits for one from that callsign if there is any, one with the latest attempt, and no other |
| `TransmitDuties.EnqueueIff` | src/microjs8/tx/queue.py:289-324 | a message is accepted if and only if fewer than three rows are neither DELIVERED nor ABANDONED |
| `TransmitDuties.NeverLost` | src/microjs8/tx/queue.py:478-537 | over all runs and restarts, every message that is not a broadcast stays in the table |
| `TransmitDuties.RestartOutcome` | src/microjs8/app.py:1211-1240 | what a restart does to table, cache, burst, PTT and worker |
| `TransmitProgress.RankFalls` | src/microjs8/tx/scheduler.py:713-763 | between enqueues and restarts every step lowers a rank or changes nothing |
| `TransmitProgress.GoesQuiet` | src/microjs8/tx/scheduler.py:713-763 | so no run does more work than the rank it starts from |
| `TransmitProgress.TickIsItsSteps` | src/microjs8/tx/scheduler.py:346-619 | an undisturbed tick is the four steps that runs interleave |
| `TransmitProgress.WorkerTickIsItsSteps` | src/microjs8/tx/encode_worker.py:229-275 | the worker's tick is its three steps |
| `Slots.SecondsUntilNextPreflight` | src/microjs8/tx/scheduler.py:316-342 | the wait is positive and at most a slot and the offset |
| `Slots.WakesInNextSlot` | src/microjs8/tx/scheduler.py:316-342 | the scheduler next wakes 0.01 s into the next slot |
| `Slots.TicksAreSlotsApart` | src/microjs8/tx/scheduler.py:302-342 | ticks whose work ends before the next boundary start exactly 15 s apart |
| `Slots.ScheduleIsTimely` | src/microjs8/tx/scheduler.py:302-342 | so each tick of a run reads the clock within its own, consecutive slot |
| `Slots.KeepingUpNeverFires` | src/microjs8/tx/scheduler.py:470-497 | then the burst watchdog never fires in the run |
| `Slots.FramesInSlots` | src/microjs8/tx/scheduler.py:493-601 | frame i of a burst goes out in the i-th slot after its first, however the burst ends |
| `Slots.KeepingUpFrames` | src/microjs8/tx/scheduler.py:302-342 | so with ticks that keep up its frames start in ticks exactly 15 s apart |
| `TwoStations.RepliesNeverWait` | src/microjs8/app.py:2417-2430 | an ACK, like every reply, never enters WAIT_ACK |
| `TwoStations.NoSecondAnswer` | src/microjs8/app.py:2140-2243 | what is heard at once is answered at most once, and an ACK frame not at all |
| `TwoStations.HearKept` | src/microjs8/app.py:1542-1548 | hearing any frame or sweep, through reassembly to the enqueued ACK, keeps the accounts of both stations: each answer to a row, and each message of it that may still be answered, had a first frame of the row to begin it |
| `TwoStations.AtMostTwelve` | src/microjs8/app.py:2228-2332 | however much is lost and whatever else is on the band, a message gets at most one ACK for each time it was sent, an ACK gets none, and a message with all its ACKs takes at most twelve transmissions |
| `Answering.OwedIsQueued` | src/microjs8/app.py:2277-2332 | complete, checked mail for this station that the mailbox took is answered: "<sender> ACK" is queued if there is room, and nothing else changes |
| `Answering.NothingOwed` | src/microjs8/app.py:2140-2243 | with none, and no ACK for this station, the transmit side does nothing |
| `Answering.AckIsForwarded` | src/microjs8/app.py:1614-1642 | an ACK frame for this station settles a row |
| `Answering.WholeMailIsAnswered` | src/microjs8/app.py:2228-2301 | with its last frame a MSG for this station in any number of frames is answered, whatever else is being received |
| `Mailbox.MailboxStore.Insert` | src/microjs8/store/inbox.py:408-424 | a letter with both names gets an id never used before; an empty name is refused |
| `Mailbox.MailboxStore.TransitionType` | src/microjs8/store/inbox.py:443-465 | a letter changes status only from the expected one |
| `Mailbox.MailboxStore.OldestHeldFor` | src/microjs8/store/inbox.py:537-560 | the lowest id among the letters held under that name, if any |
| `Mailbox.PostOffice.HandleQueryMsgId` | src/microjs8/app.py:2381-2415 | a query is answered with a letter if and only if it is held for the asker and the queue has room |
| `Mailbox.PostOffice.HandleQueryMsgs` | src/microjs8/app.py:2334-2380 | a query is answered with the oldest held letter's number, with NO, or not at all |
| `Mailbox.PostOffice.ForwardAck` | src/microjs8/app.py:1614-1642 | an ACK settles one row, drops its audio and hands over the letter that the row delivered |
| `Mailbox.PostOffice.MaybeMarkInboxDelivered` | src/microjs8/app.py:3243-3289 | marks the letter named by the second and third word of an acknowledged text |
| `Mailbox.HeldIdRoundTrip` | src/microjs8/app.py:3243-3289 | the number read back from a delivery is the number it was made with |
| `Mailbox.HeldIdIff` | src/microjs8/app.py:3268-3278 | a text names a letter if and only if its second word is MSG and its third is a number |
| `Mailbox.DeliveryAwaitsAck` | src/microjs8/tx/queue.py:102-204 | the delivery of a letter awaits an ACK if and only if it does not go to a group |
| `HeldMail.HandedOverOnProof` | src/microjs8/app.py:3243-3289 | if delivery texts come only from queries, a letter counts as handed over only after its own text went whole to its own recipient, who then acknowledged it |
| `HeldMail.AckHandsOver` | src/microjs8/app.py:3243-3289 | the ACK of a delivery hands over the letter it names if that is still held, and changes no other |
| `HeldMail.OfferNeverHandsOver` | src/microjs8/app.py:2334-2360 | the notification "MSG <id>" reads like a delivery but can never be acknowledged |
| `Playback.AudioPlayback.Arm` | src/microjs8/audio/playback.py:327-351 | arms a frame, or refuses a negative silence |
| `Playback.AudioPlayback.AudioCallback` | src/microjs8/audio/playback.py:395-470 | fills any block with the next samples of silence, modulation and zeros, alike on both channels, and is done exactly once a block reaches past the modulation |
| `Playback.Play` | src/microjs8/audio/playback.py:429-470 | callbacks with blocks of any sizes emit one stream, and the frame is done exactly if they reached past its last sample |
| `Playback.StreamShape` | src/microjs8/audio/playback.py:395-470 | that stream is the silence, the modulation and then zeros |
| `Capture.AudioCapture.WriteIntoRing` | src/microjs8/audio/capture.py:133-147 | the ring moves on by the samples if and only if they do not run past its end twice; what a refused write leaves |
| `Capture.AudioCapture.Snapshot` | src/microjs8/audio/capture.py:151-160 | a copy of the ring, oldest sample first |
| `Capture.AudioCapture.OnAudio` | src/microjs8/audio/capture.py:102-131 | a block is decimated and written, and what a refused block leaves |
| `Capture.Record` | src/microjs8/audio/capture.py:102-147 | any blocks of whole groups of four that fit the ring leave it with the last samples of what it held and every fourth input sample |
| `Capture.SnapshotAfter` | src/microjs8/audio/capture.py:128-160 | so a snapshot after them shows the last samples of silence followed by every fourth input sample |
| `Grid.GridRoundTrip` | src/microjs8/gps/grid.py:34-88 | the grid of the centre of any canonical grid is that grid |
| `Grid.CentreIsNear` | src/microjs8/protocol/distance.py:27-66 | a grid is made for precision 4 and 6 only, and every point, edges included, is within half a cell of the centre of its canonical grid, in degrees |
| `Grid.ReadIff` | src/microjs8/protocol/distance.py:27-66 | a text is read as a grid if and only if, stripped, it spells a canonical one in any case |
| `Grid.ReadAs` | src/microjs8/protocol/distance.py:27-66 | and then as that grid |

## Left out

- Rows, messages and letters: error texts, log lines, status callbacks and the activity feed.
- Frame parsing: the regular expressions of `src/microjs8/protocol/grammar.py`; the model starts from parsed frames, and takes callsigns to be words.
- Text beyond Latin-1: `checksum16` raises UnicodeEncodeError there, and `str.upper` maps a few letters (sharp s, y with diaeresis, micro sign) outside Latin-1, where the model leaves them alone.
- Exceptions that escape the encoder, the transmitter or a database call, and a failing `ptt_off`.
- Interleavings inside one queue method, and of an ACK with the sweep of ACK timeouts: each is one step, so the unguarded retry of a row that was acknowledged meanwhile is not modelled.
- PTT at a restart: the radio is taken to be released when the daemon starts.
- The CAT layer's own watchdog, reconnects, and the reserve it adds to the burst deadline.
- Floating-point rounding: times, offsets and coordinates are exact.
- Samples: audio is taken as integers without a width, and the resampling filter is not part of this model.
- Grid strings that Python rejects with an error other than ValueError: both are refused.
- ReassemblyRuns.NonInterference: reports of `sweep_timeouts` are not among the messages compared, because frames at other offsets do silence them (`TimeoutReports.ReportedIff` says exactly when).
- TwoStations.AtMostTwelve: what a frame on the air parses to, whether a `MSG TO:` names a recipient and whether the mailbox stores the letter are parameters; of the first it relies on an ACK reading "<from>: <to> ACK" and on frames after the first having no envelope (`TwoStations.Carries`).
- HeldMail.HandedOverOnProof: operator messages that read "<call> MSG <number> ..." and await an ACK are excluded, because their ACK would mark a letter too; `HeldMail.AckHandsOver` says which.
- Beacons, group auto-responses, heard stations, distance and bearing, configuration and the user interface: their logic is one branch deep.
