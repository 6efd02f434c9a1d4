# A verified model of pad_svr

pad_svr gives asynchronous X.25 terminals a login on a Linux host. For every call a worker process
relays bytes between the X.25 socket and a pseudo terminal (pts). This project models what such a worker
does from the first poll to the last close, the table of workers that the monitor keeps, and the small
codecs around them, and proves properties of the model with Dafny. `dafny verify dfyconfig.toml` checks
everything.

## The session

`Session.dfy` is one session as a step machine. The relay loop, `do_inter`, `writensockint`, `writen`, the
closing acts and both closing waits are split into atomic steps; testing a `Flag_*` variable, acting on it and
clearing it are different steps, so that a signal may arrive between any two of them. A *run* is any sequence
of events: signals, expiring timers, the end of the process, results of poll, read, write and waitpid, and
internal steps; a `Behaviour` is a run with all its states. An answer that nobody waits for is ignored and
sizes are clipped to what the call allows, so every sequence of events is a run. After an interrupted poll the
reported events are arbitrary, which covers the stale ones that the program looks at. A lone byte from the
X.25 socket takes the error branch with a stale errno, as in the code.

* `SessionControl.dfy` and `SessionFlow.dfy` prove what every step keeps: timers, `Done` codes
  and the order of the closing acts in the first; the bytes carried, the batch buffer, the
  adaptive threshold, batch growth and inbound delivery in the second.
* `SessionTheorems.dfy` states the promises for all configurations and all runs.
* `SessionEnds.dfy` says why a session ends: which event each end code comes from, when a closing wait ends and
  which waits there are.
* `SessionIteration.dfy` says what one iteration of the relay, and one turn of a closing wait, performs.
* `SessionAccounts.dfy` ties the histories, the flush policy and the timers to the events that came.
* `SessionWrites.dfy` proves that the session's writes are calls of `writensockint`, so that everything in
  `Writen.dfy` holds of them.
* `SessionWakeups.dfy` says when the program wakes up for its signals and timers, from any signals that are
  pending when the session begins, and what a wakeup leads to.
* `SessionSignals.dfy` says what becomes of a signal: served (`ServingMeans` tells what that does for each
  flag), pending or forgotten.
* `SessionLosses.dfy` says what a session loses of the bytes that it read from the pts.
* `FlushLearning.dfy` says when the threshold that a timer flush teaches is used.
* `FullBuffer.dfy` shows that a full batch buffer is read with size 0 and the result is taken for an end of
  file. It gives the exact condition, and a healthy session that loses a whole buffer in every batched
  configuration.
* `Counterexamples.dfy` has the other runs in which a session does not do what one might expect.
* `Writen.dfy` treats a whole call of `writensockint` against any sequence of kernel answers: in-place
  framing and the retry budget.
* `Worker.dfy` is the session in the program's own form: a class with the program's variables, its buffers
  as arrays updated in place and its loops. A ghost machine state moves along with the variables, and
  every method is proved to keep the two in agreement. The contracts say (`Ran`) that this state is what the
  machine reaches by the trace, that the trace follows the tape of events in order and passes over no answer
  outside a kernel call, and that an execution stops early only where the tape or the process ends.

## The registry and the codecs

* `Registry.dfy`: the linked list of workers with first-free reuse and a tail pointer, proved against a
  sequence of slots, and that sequence against the entries registered and not yet removed.
* `Fifo.dfy`: the 40-byte text records and `read_fifo`, end to end.
* `Profile.dfy`: X.3 profiles between configuration text, table, printed text and the Set PAD message of
  section 4.4 of ITU-T X.29.
* `PacketSize.dfy`: the packet size exponent, section 7.2.2.1 of ITU-T X.25.
* `Issue.dfy`: the banner's escapes, expanded into a bounded buffer.
* `Common.dfy`, `Text.dfy`: sequence helpers; `%i`, `atoi`, `strtok_r` and C strings.

## What turned out not to hold

Each of these has its exact condition (first) and an input or a run at which it fails (second).

* A flag that was raised before the session's own handlers were set has no byte in the self-pipe, and the relay
  polls as if it were down: an exit signal of that kind is ignored while data keeps coming (`NoLostWakeup`,
  `WakeupsKeptIff`; `TrafficHidesExit`).
* What is in the batch when the loop ends is lost, after an ordinary end of file too (`LossIsTheBatch`;
  `SmallBatchIsLost`).
* A batched session can end as if the pts had been closed, losing all that is in the buffer
  (`FullBufferReadsAsEof`; `UndisturbedSessionLosesData`).
* Immediate mode never sets the Q byte of its packets (`DataPacketsKeepQByte`; `StaleQByteIsSent`).
* A write to the pts that is cut short by a signal is repeated from its first byte, so the pts receives bytes
  twice (`InboundExact`; `RetryDuplicates`).
* A session can invite the peer to clear on a circuit that its poll has just reported dead
  (`DeadCircuitInvitedIff`; `DeadCircuitIsInvited`).
* A signal that comes after its flag has been served and before it is cleared is forgotten; for SIGHUP and
  SIGCHLD that is possible, and a session can miss the end of its child for good (`SignalForgottenIff`;
  `ChildEndIsMissed`, `MissedForEver`).
* The threshold that a timer flush teaches is overwritten by the next read, unless the circuit has answered
  (`LearnedIffAnswered`; `LessonIsForgotten`).
* The comment on `writensockint` asks for writes of at least two bytes, and without that the number of tries
  has no bound (`RetriesBounded`; `OneByteWritesGoNowhere`).
* A pid of more than five characters is stored cut but compared in full, so its slot is never freed
  (`RemovalNeedsShortPid`; `LongPidsLeakSlots`).
* A profile with a single entry is taken for no profile, and one with 25 entries, which the table holds,
  overruns the buffer of the Set message (`ConfiguredProfileIsSentIff`; `OneEntryIsNotSent`,
  `FullTableOverruns`).
* The loop over the program's own profile takes a seventh pair from behind the array of six
  (`StandardProfileIsSentIff`, which covers both cases).
* The printed profile is cut, and then always reads back differently, when it needs more than 139
  characters (`EchoRoundTrip`; `LongProfileIsCut`).
* `faclen` loops for ever on exactly the negative sizes (`LoopEndsIffNonNegative`; `NegativeSizeHangs`).

## Model

| member | source | states |
|---|---|---|
| SessionTheorems.OutboundConservation | do_copy.c:320-541 | On every run the payloads sent are a prefix of the bytes read from the pts; between iterations the rest is exactly the batch; after a hang-up (code 3) nothing is missing |
| SessionLosses.LossIsTheBatch | do_copy.c:423-541 | Once the loop is left, what was read and not sent is exactly the batch unless a data write returned short; nothing is lost if and only if the batch is empty and no write was short |
| Counterexamples.SmallBatchIsLost | do_copy.c:423-426 | A run in which the pts ends while a byte waits in the batch, and the byte is never sent |
| SessionTheorems.DataPacketsKeepQByte | do_copy.c:376-396 | Every data packet has a Q byte, and it is 0 exactly in batched mode or when the uninitialised buffer happened to start with 0 |
| SessionWakeups.NoBatchStranded | do_copy.c:398-417 | Under any interleaving of signals, a batch at the loop head or at the poll has its read timer running, or Flag_Idle raised with a byte in the self-pipe |
| SessionWakeups.NoLostWakeup | sighandler.c:90-119 | At a poll that looks at a raised flag the self-pipe is empty if and only if the flag was raised without a byte before the session, no signal has come since and no handler has looked at it |
| SessionWakeups.WakeupsKeptIff | sighandler.c:49-64 | No run of a configuration polls with a raised flag and an empty self-pipe if and only if every flag up at the start has a byte |
| Counterexamples.TrafficHidesExit | do_copy.c:320-341 | With an exit signal raised before the session, the relay polls again after any number of inbound frames, the signal unseen |
| SessionWakeups.PollsAreBounded | watchdog.c:56-72 | At each of the three polls a watchdog with a positive timeout is running or the self-pipe is readable |
| SessionWakeups.TimersByPlace | watchdog.c:56-127 | At the relay's poll the shorter timeout is never set, at the polls of the closing waits neither the full watchdog nor the read timer; a finished session leaves no timer running |
| SessionWakeups.ReportedFlagsAreServed | do_copy.c:324-341 | After a poll with news of a signal, and after an interrupted read or write, every flag that is up and looked at there is served before anything else goes on |
| SessionWakeups.QuietAfterService | do_copy.c:338-341 | With no signal meanwhile, the poll after one that reported the self-pipe finds the pipe empty and every flag down |
| SessionTheorems.BatchGeometry | do_copy.c:298-311 | At the loop head free space and batch add up to the buffer, the read pointer is behind the batch, and the batch is below a threshold of bounded size |
| SessionTheorems.BatchesDouble | do_copy.c:404-413 | A size-triggered flush with no inbound data since the previous flush sends more than twice its payload |
| SessionTheorems.ChainsAreShort | do_copy.c:509-541 | At most log2(Buffer_size + 1) such flushes follow one another |
| SessionTheorems.InboundDelivery | do_copy.c:446-470 | The pts receives for each data frame proper prefixes left by failed tries, then the whole payload |
| SessionTheorems.InboundExact | writen.c:64-77 | The pts receives exactly the inbound payloads in order if and only if no failed try had written anything |
| SessionTheorems.Shutdown | do_copy.c:544-604 | The loop ends with one of nine codes; a finished session closed the pts, sent one removal record, invited to clear exactly for codes 1, 3, 6, 7, 8, 11 and closed the socket, in this order and once each; all later packets have Q byte 1 |
| SessionTheorems.DataEndsWithLoop | x29proto.c:106-116 | Once the loop is left no continuation of the run sends another data packet or changes the end code |
| SessionTheorems.DeadCircuitInvitedIff | do_copy.c:343-373 | A session whose poll reports the circuit dead attempts an Invitation to Clear on it exactly if that poll also reports an error on the pts |
| SessionEnds.EndCodeIsLastCause | do_copy.c:320-541 | In the loop Done is the code of the last event that is a reason to end, or 0 without one, and the loop is left with that code: 1 for an error on the pts, 2 and 3 for a hang-up of circuit and pts, 6 and 9 for their ends, 7 for an alarm, 8 for an exit signal, 10 for an error on the circuit, 11 for a failed poll |
| SessionEnds.InvitedIffNotOnCircuit | do_copy.c:554-603 | A finished session has invited the peer to clear exactly if its last reason to end was not on the circuit |
| SessionEnds.WaitEndsIff | do_copy.c:158-264 | A closing wait goes on over any number of polls until a broken poll, a served alarm or exit signal, for the circuit a dead socket or a failed or ended read, for the child a served SIGCHLD; after each of these it never polls again |
| SessionEnds.LatePacketIsDropped | do_copy.c:223-250 | A packet of two or more bytes never ends the wait for the circuit |
| SessionEnds.WaitsAsNeeded | do_copy.c:554-604 | A finished session has waited for the circuit exactly after codes 1, 3, 6, 7, 8 and 11, and for the child unless it had its exit status |
| SessionIteration.IterationPerforms | do_copy.c:320-541 | Every complete iteration reads self-pipe, pts and socket exactly once each if the poll reported input there and else not, and makes its tests and its flush decision exactly once |
| SessionIteration.WaitTurnPerforms | do_copy.c:158-264 | Every turn of a closing wait reads the self-pipe exactly if reported, and the wait for the circuit reads the socket exactly if its poll reported input |
| SessionAccounts.HistoriesAreTheReads | do_copy.c:376-454 | The bytes and frames that the other results speak of are exactly what the reads from pts and circuit brought, cut at the room of the buffers: the Q=0 packets of two or more bytes, less their Q byte |
| SessionAccounts.FlushIff | do_copy.c:509-541 | A decision flushes the whole batch exactly if there is one and the threshold is reached, the forward timer was served since the last decision, or the pts has hung up |
| SessionAccounts.ThresholdMoves | do_copy.c:398-521 | The threshold starts as DatalengthMin; a read after a flush that no data frame has answered sets it to that flush and half the batch, a timer flush with no such read before it sets it to the batch less a quarter of the last read, and nothing else moves it |
| SessionAccounts.TimersMove | watchdog.c:56-127 | In the loop only a read of data sets the read timer, or stops it at the threshold; the watchdog is set at the head and shortened exactly by an Invitation to Clear and an Indication of Break |
| SessionWrites.DataWriteIsCall | writen.c:20-61 | Every data write of the relay is a call of the write loop with the answers that came, step for step; a call that gave up leaves code 10 |
| SessionWrites.ResultCountsPayload | do_copy.c:534 | What the relay keeps as the size of a flush is one more than the payload that the flush has sent |
| SessionWrites.ResumedIffNotStopped | do_copy.c:119-150 | An interrupted data write is resumed exactly if its handler served no alarm and no exit signal |
| SessionWrites.InvitationIsCall | x29proto.c:106-116 | The Invitation to Clear is such a call on Q byte 1 and message code 1, and its packets are all that is sent after the loop |
| SessionWrites.InterruptEndsInvitation | x29proto.c:35-53 | An interrupted invitation is never resumed; with an alarm or an exit signal up then, only the exit of its handler follows |
| SessionTheorems.DoneStaysSet | do_copy.c:119-156 | Inside the loop a Done that was set stays set, over any number of steps |
| SessionTheorems.ShortWriteEndsSession | writen.c:32-50 | A data write that returns less than it was given leaves Done set |
| FlushLearning.LearnedIffAnswered | do_copy.c:404-408 | After a timer flush the learned threshold governs the next data from the pts if and only if a data frame came from the circuit since; otherwise that read takes a threshold beyond the flushed batch |
| FlushLearning.LearnedThresholdFlushes | do_copy.c:509-541 | Once it governs, a batch is flushed in the iteration in which it reaches the learned threshold, and before that only by the timer or a pts hang-up |
| Counterexamples.LessonIsForgotten | do_copy.c:404-408 | A run with a timer flush and no answer, in which the next batch of the same size is not flushed |
| SessionSignals.SignalServedOrPending | sighandler.c:90-119 | At any later point of the session a signal is pending or has been served, unless it came when its own flag was served and not yet cleared |
| SessionSignals.SignalForgottenIff | do_copy.c:119-150 | When the main thread goes on, a signal is neither pending nor served exactly if it was SIGHUP after readcfg or SIGCHLD after waitpid with the flag still to be cleared |
| FullBuffer.FullBufferReadsAsEof | do_copy.c:382-426 | Waiting pts data is not read, and the session ended with code 6, exactly when the batch fills the buffer; the threshold then exceeds the buffer |
| FullBuffer.UndisturbedSessionLosesData | do_copy.c:402-426 | In every batched configuration some run without any failure ends with code 6 and without the last Buffer_size bytes read |
| Counterexamples.StaleQByteIsSent | do_copy.c:376-396 | In every immediate configuration a run sends what malloc left in the first cell as the Q byte |
| Counterexamples.RetryDuplicates | do_copy.c:459-463 | A run in which an interrupted write makes the pts receive a byte twice |
| Counterexamples.DeadCircuitIsInvited | do_copy.c:343-373 | A run that invites the peer to clear on a circuit that has hung up |
| Counterexamples.ChildEndIsMissed | do_copy.c:145-148 | A run in which a SIGCHLD between waitpid and the clearing of its flag leaves the session waiting for a child that has ended, with no status and no signal pending |
| Counterexamples.MissedForEver | do_copy.c:55-101 | Without another SIGCHLD such a session never receives the exit status |
| SessionControl.StepControl | do_copy.c:119-150 | Every step keeps the timer, Done and closing-order invariants |
| SessionWakeups.StepAwake | sighandler.c:90-119 | Every step keeps a raised flag in reach: a byte in the self-pipe, or a handler that is about to look at it |
| SessionFlow.StepData | do_copy.c:375-541 | Every step keeps the buffer, conservation, growth and delivery invariants |
| Writen.FramingLossless | writen.c:21-61 | In every state of every call the cursor matches the counter, the unsent bytes are untouched, every packet starts with the original Q byte, the packets carry exactly the sent payload and the result is one more than its length |
| Writen.RetriesBounded | writen.c:29-60 | A call still running has made fewer than 3 * (nbytes - 1) uninterrupted writes, plus three for each write that took one byte |
| Writen.OneByteWritesGoNowhere | writen.c:17-18 | Any number of writes that take one byte leave the call where it began |
| Writen.GivesUpOnThirdFailure | writen.c:38-49 | The error handler runs exactly on the third failure with no successful write in between; the call is stopped exactly by an interrupt handler that says so |
| Writen.TwoFailuresAreOvercome | writen.c:38-49 | A call with at most two failures in a row and no stop from the interrupt handler goes on until all is sent |
| Worker.PadWorker.DoCopy | do_copy.c:266-605 | For every tape: the execution is a run of the machine that follows the tape and stops early only with the tape or the process; the relayed packets carry a prefix of the pts bytes (all of them after code 3), later packets are qualified, and a complete execution performed its closing acts and inbound deliveries |
| Worker.PadWorker.Relay | do_copy.c:320-543 | The loop on the program's variables follows the machine from its head to its exit, or to the end of the tape or the process |
| Worker.PadWorker.DoInter | do_copy.c:119-150 | Serving the five flags in order follows the machine to the return for its call site |
| Worker.PadWorker.WriteNSockInt | writen.c:20-61 | The in-place loop over the array returns what the machine's write returns and leaves the same buffer |
| Worker.PadWorker.WriteN | writen.c:64-77 | Returns -1 with nothing but the failed answer outstanding, or has written everything, unless the tape or the process ends |
| Worker.PadWorker.MasterAppends | do_copy.c:398-417 | The batched read updates buffer, counters, threshold, flags and timer as the machine does |
| Worker.PadWorker.FlushBatch | do_copy.c:509-541 | The flush decision and the flush follow the machine back to the loop head |
| Worker.PadWorker.X29InvClear | x29proto.c:106-116 | Sends the two bytes through the same write loop, with the handler that never resumes it |
| Worker.PadWorker.WaitFor | do_copy.c:158-264 | Both closing waits follow the machine to their end |
| Registry.TableHoldsEntries | pts_addr.c:190-220 | After any registrations and removals the live slots are exactly the entries registered and not yet removed |
| Registry.HighWaterMark | pts_addr.c:166-188 | The list has as many nodes as the greatest number of entries ever held at once, and at least one |
| Registry.StoredFields | pts_addr.c:199-204 | A registration stores its own pid, pts and address, cut to 5, 15 and 15 characters, in the first free slot and touches no other |
| Registry.EntriesStayInPlace | pts_addr.c:190-220 | Through any operations a live entry keeps its position until its pid is removed |
| Registry.RemovalNeedsShortPid | pts_addr.c:199-214 | Removing a pid after registering it frees the slot exactly when the pid has at most five characters |
| Registry.LongPidsLeakSlots | pts_addr.c:209-220 | Among long pids no removal frees a slot: after any operations the list has one node for every registration there ever was |
| Registry.ListedIffLive | pts_addr.c:269-275 | A row is in the upload exactly if it is a live slot with its index |
| Registry.ListingIsOrdered | pts_addr.c:263-285 | The rows come by increasing index |
| Registry.LineReadsBack | pts_addr.c:271 | The tab-separated fields of a line read back as index, pid, pts and address |
| Registry.Table.InsEntry | pts_addr.c:190-207 | The heap list refines insertion into the first free slot, or behind the last |
| Registry.Table.CleanEntry | pts_addr.c:209-220 | The walk empties exactly the slots with that pid |
| Registry.Table.FindFree | pts_addr.c:166-174 | The walk finds the first free node, or none |
| Registry.Table.AllocNew | pts_addr.c:176-188 | A new node joins the end and the list stays well formed |
| Registry.Table.Upload | pts_addr.c:257-290 | The lines written are the literal header, the listing and the literal footer |
| Fifo.RecordRoundTrip | pts_addr.c:112-164 | A record acts as its message, whatever stale bytes follow the terminator and even if the address was cut |
| Fifo.RecordLayout | pts_addr.c:112-122 | Up to its NUL a record is pid, pts and address with a space between them, the address `unknown` if there is none |
| Fifo.PartialRecordsAreIgnored | pts_addr.c:148-160 | A record with one or two fields changes nothing |
| Fifo.ShortReadCounts | pts_addr.c:142-145 | A read of fewer than 40 bytes counts as well: the text alone stands for its record |
| Fifo.FifoGivesSameTable | pts_addr.c:135-164 | Any sequence of messages through the FIFO gives the table that the operations give directly |
| Fifo.WorkersAreHeld | pts_addr.c:112-220 | For fields within 5, 15 and 15 characters the table that read_fifo builds holds exactly the workers registered and not yet removed, each with the pid, pts and address of its message, in as many nodes as entries were ever held at once, and at least one |
| Fifo.SendPtsAddr | pts_addr.c:112-133 | The buffer becomes the formatted record over its old contents; the FIFO receives all of it, or nothing if the write is refused or the table switched off |
| Fifo.ReadFifo | pts_addr.c:135-164 | The loop over the FIFO leaves the table that the stream stands for |
| Profile.EchoRoundTrip | x29proto.c:130-152 | The printed profile reads back as the profile exactly when all of it fits the buffer |
| Profile.LongProfileIsCut | x29proto.c:130-152 | A profile of 20 entries that needs 140 characters reads back differently |
| Profile.ReadProfileLoop | cfgfile.c:95-126 | The loop stores the parameters of the list in order, and tells the lists that the table cannot hold |
| Profile.X29ProfileEcho | x29proto.c:130-152 | The loop prints the items of a profile of at least two as far as the buffer holds them, less the last character |
| Profile.SetRoundTrip | x29proto.c:64-104 | The parameter field of the Set PAD message decodes to the profile |
| Profile.ConfiguredProfileIsSentIff | x29proto.c:64-104 | The peer receives the configured profile exactly when it has 2 to 24 entries; the buffer is overrun exactly from 25 |
| Profile.StandardProfileIsSentIff | x29proto.c:80-88 | The loop sends the program's own profile if and only if its last index is 5; with the program's 6 the peer receives a seventh parameter from behind the array |
| Profile.OneEntryIsNotSent | x29proto.c:80-88 | The line `1:0` is stored as one entry, and the peer receives something else |
| Profile.DefaultProfileIsSent | x29proto.c:80-101 | With no profile configured the peer receives the program's own six parameters and one from behind the array |
| Profile.SetLayout | x29proto.c:73-95 | The message is Q byte 1, code 2, and for each parameter in turn its reference and value |
| Profile.ParsedIff | cfgfile.c:108-121 | A parameter of a list is taken exactly with a reference from 1 to 30 and a value up to 255, and is else skipped |
| Profile.OddTokensAreSkipped | cfgfile.c:107-112 | A token of two or fewer or of seven or more characters, or without a colon, is skipped, and the list goes on behind it |
| Profile.EmptyTokensAreSkipped | cfgfile.c:102-124 | Empty places in the list are skipped |
| Profile.WrittenProfileIsStandard | cfgfile.c:203 | The profile line of a new configuration file stores the program's own profile |
| Profile.FullTableOverruns | x29proto.c:67-95 | A line of 99 characters fills the table with 25 entries, whose message overruns the buffer |
| Profile.SetSurvivesSplitting | x29proto.c:99-102 | However the message is split, every packet is qualified and together they carry the profile |
| Profile.X29SetDefault | x29proto.c:64-104 | The loops, for every value of X29_profile_len that readcfg leaves, build exactly that message or stop where they would leave the buffer; with no profile they send the program's own |
| Profile.ProfileReachesPeer | x29proto.c:64-104 | A profile that prints whole survives being configured again, and reaches the peer exactly if it has fewer than 25 entries |
| PacketSize.FaclenLoop | cfgfile.c:217-224 | The shifting loop computes the exponent |
| PacketSize.LoopEndsIffNonNegative | cfgfile.c:217-224 | Repeated shifting reaches 0 exactly from non-negative numbers |
| PacketSize.NegativeSizeHangs | cfgfile.c:145-150 | The configured size -1 is read as a negative number, from which no shift reaches 0 |
| PacketSize.ExponentIsLargest | cfgfile.c:212-224 | The exponent stands for the largest power of two not above the size |
| PacketSize.FaclenOfPaclen | cfgfile.c:212-224 | The exponent of the size of an exponent is that exponent |
| PacketSize.FaclenMonotone | cfgfile.c:217-224 | Larger sizes have no smaller exponents |
| PacketSize.ConfigRoundTrip | cfgfile.c:145-150 | Writing and reading a stored exponent restores it |
| PacketSize.ConfiguredSize | cfgfile.c:145-150 | The stored size brackets the configured one exactly from 16 up to below 8192; below it is stored as 16, from 8192 on as 4096 |
| Text.DecimalDigits | pts_addr.c:119 | The digits that `%i` writes |
| Text.AtoiReads | cfgfile.c:114-115 | A number is read from an optional sign and the digits behind it, up to anything else |
| Issue.ExpandChunk | issue.c:66-148 | For each piece the buffer receives the first 999 characters of the unbounded expansion, and the escape state carries over |
| Issue.PrintedIsExpansionIffAllFit | issue.c:66-148 | However the file is cut, the output is its expansion exactly when every piece's expansion fits |
| Issue.DoublingQuotes | issue.c:73-135 | Text with every escape character doubled prints as itself |
| Issue.EscapesMean | issue.c:66-135 | After any text, each escape prints what it stands for, with either escape character, and an unknown one nothing |
| Issue.OthersMeanThemselves | issue.c:66-148 | Every other character prints itself |
| Issue.Insstr | issue.c:161-176 | A string is appended as far as there is room |

## Left out

- What re-reading the configuration on SIGHUP changes (do_copy.c:122-127): a session has one configuration; the signal and the moment of readcfg are modelled.
- Kernel sockets, opening the pts, utmp, pid files, command line, logging and tracing: input, output and formatting without state that the properties speak about.
- The monitor's fork and wait loop, and the FIFO set-up: supervision around the modelled parts.
- Blocking and the capacity of the self-pipe: reading an empty pipe may return nothing, and a full pipe never blocks a handler.
- Whether waiting ever ends: events are taken as they come; nothing is claimed about a peer that never answers.
- Exit and close_sock (pad_svr3.c): the first ends the process, the second is a recorded act. The settings' initial values, defined there too, are parameters; the program's own profile is as it stands there.
- What a write behind the buffer of the Set message does to memory: the model stops there.
- Flag_pts_addr_send_status and the logging counters of do_copy.c: nothing in the modelled files depends on them.
- The 40-byte buffer of read_fifo is given the 41st cell that its terminator needs.
- Fixed-key configuration lines other than Pacsize_in and x29_profile: one-branch clamps.
- x29set and x29ind_break: empty and unused.
- Date escapes of the banner expand to one date per file; a piece is taken without embedded NUL bytes.
- Integer overflow in atoi and the 999-byte limit of an upload line, which no entry reaches.
- FaclenLoop: asks for a non-negative number, because on others the source never returns.
- WriteNSockInt: asks for at least two bytes, as every call in the relay has; for fewer the source returns 0 at once.
- FramingLossless: likewise, for at least two bytes.
