# Go-Back-N file transfer over UDP

This project models the file transfer of the UDP programs in `Go Back N (UDP)`: the server child that `Server::Run`
forks and the client. It proves properties of the two machines joined by two lossy channels.

How the protocol differs from the textbook form, and how the model follows it:

- RR(k) means "packet k received". A REJ inside or above the window makes the server send its whole window again; a REJ
  below it rewinds the file with `lseek`. The server sends nothing on its own timeout: the client's REJ drives recovery.
- The server pops packets up to k on RR(k) with a 32-bit counter; `mvSequence++` and the product given to `lseek` are
  32-bit as well. All three are modelled with their wrap-around.
- Sizes travel in a 16-bit field, so the parameters the server takes are the client's modulo 65536.
- The client writes a packet whose number it waits for before it looks at the packet's type.
- The client sends no RR for the last packet, and no function of the server returns `DONE`: completion is a fact about
  the client.
- A fresh child waits for packet 1 although the listener has answered it, so every handshake goes back once.

The comment at `Server.cpp:283` says that a packet out of sequence is rejected; the code answers an older one with
RR(`mvSequence`), and the model does what the code does.

## Layers

- `Packets`, `Chunks`: the packed struct and its bytes (little-endian), the checksum (any function of the packet), and
  cutting a file into reads.
- `ServerSpec`, `ClientSpec`: each side as step functions on a snapshot of its fields.
- `ServerProgram`, `ClientProgram`: the classes, with the source's fields, queues and loops. Every method is proved to
  do what the step function does, including which packets it hands to `sendto` and which call failed. The state loops
  `Child` and `Run` take a finite trace of receptions after which the network stays silent, and terminate.
- `Transfers`: what the fields mean in terms of the file, for one step of either side.
- `Network`: both machines and two channels that may drop, duplicate, delay and reorder packets and corrupt them
  detectably. Whatever was sent stays deliverable for ever. A run is clean if it never hands a receiving client an
  answer of the handshake that carries the number the client waits for.
- `Handshake`, `EndToEnd`: agreement in the handshake, and what every clean run from the fork keeps.
- `Recovery`, `SeekLimit`: completion over that network, and the 32-bit argument of `lseek`.
- `Ordered`, `OrderedRecovery`: the same machines over channels that keep order and do not duplicate.
- `HandshakeLoop`, `Completion`: stalls of the handshake over ordered channels and what ends them, and the exact
  condition under which a transfer can still be completed.
- `Retries`, `ClientTraces`, `ServerTraces`: what a side does on a whole trace of turns, read off the trace alone: its
  counter, what it has sent, written and taken, and when it stops and why.

## Assumptions

- `Job.Valid`: 1 <= buffer size <= 1400 (`PKT_DMAX`), 1 <= window size <= 65535, the requested file exists, its name
  fits the payload array with its terminator and contains no NUL, and the number of the last packet plus the window
  size is below 2^32.
- `Job.OffsetsFit`, only over the reordering network: the offset of every packet before the last is below 2^32. It is
  proved to be exactly the condition under which rewinding works (`SeekLimit.CursorSafeExactly`) and under which clean
  runs keep the output right (`SeekLimit.OutputSafeExactly`). Over ordered channels it is not needed.
- The file does not change; `read` returns the smaller of the buffer size and what remains, or fails. `write` may be
  short for the client's methods; where both machines run it takes every byte or fails.
- A packet changed on the way fails the checksum test.
- The results over the reordering network are about clean runs from the fork. Cleanness is proved to be exactly what
  keeps the output right (`EndToEnd.RightExactly`): the client writes whatever carries the awaited number. Every run is
  clean once packet 4 of the file is written (`EndToEnd.SafePastAnswers`), every run over ordered channels is
  (`Ordered.OrderedRunsAreClean`), and all runs are exactly for files shorter than one buffer
  (`EndToEnd.SafeFromForkExactly`).
- The handshake starts when `Run` has forked the child: the client has sent packet 1 and the listener has answered it.

## Model

| member | source | states |
|---|---|---|
| Packets.SealedIsAccepted | Go Back N (UDP)/packet.c:55-73 | Whatever `in_cksum` computes, a packet sealed by `rrpkt`, `rejpkt` or `fillWindow` and delivered unaltered is accepted, comes back unchanged and resets the retries |
| Packets.ChecksumFieldIsUnique | Go Back N (UDP)/Client.cpp:125-137 | Whatever `in_cksum` computes, an intact packet whose checksum field is replaced is rejected if and only if the field changed |
| Packets.CStringRoundTrip | Go Back N (UDP)/Server.cpp:300-303 | A name without NUL, sent with its terminator and any filling, is read back unchanged |
| Packets.ParseWire | Go Back N (UDP)/packet.h:19-27 | A packet put on the wire field by field and read back is the same packet |
| Packets.WireParse | Go Back N (UDP)/packet.h:19-27 | Every run of 1409 bytes is the wire form of the packet read from it |
| Packets.ControlBytes | Go Back N (UDP)/packet.c:55-73 | RR and REJ are 0xAA and 0x55 in every byte but those of the number and of the checksum over all of it |
| Packets.DataBytes | Go Back N (UDP)/Server.cpp:344-355 | A data packet carries the bytes that were read, their count and its number, and zeros behind them |
| ClientSpec.InitPktBytes | Go Back N (UDP)/Client.cpp:153-187 | The contents of the five packets of the handshake: type, number, checksum, the parameter in its place and the type byte everywhere else |
| Chunks.ShortFromLastChunk | Go Back N (UDP)/Client.cpp:281-285 | A chunk is shorter than a buffer if and only if its number is at least file length / buffer size |
| Chunks.SplitJoin | Go Back N (UDP)/Server.cpp:343-359 | For every file and positive buffer size, enough consecutive reads, joined up to the first short one, give the file, and the short ones are those from file length / buffer size on |
| Chunks.JoinTooFew | Go Back N (UDP)/Client.cpp:274-285 | Fewer reads than that contain no short one and join to a prefix of the file |
| ServerSpec.FillMode | Go Back N (UDP)/Server.cpp:343-361 | Filling ends at SEND_WINDOW, or in ERROR exactly if `read` fails before the window is full; the retries stay |
| ServerSpec.StepKeepsSane | Go Back N (UDP)/Server.cpp:377-411 | If announced buffers fit the payload array, or every file does, and announced windows have room, then each pass keeps the facts that make the next one defined |
| ServerSpec.SaneChildIsDefined | Go Back N (UDP)/Server.cpp:343-411 | On every trace that announces no other parameters the state loop never takes `front()` of an empty window and no read overruns the payload array |
| ServerSpec.QueueDiscipline | Go Back N (UDP)/Server.cpp:364-390 | On every trace, with any events and failing calls: at SEND_WINDOW the queue is a tail of a full window, at WAIT_RR it is empty and the window is full; sane parameters give the window a front |
| ServerSpec.NextSend | Go Back N (UDP)/Server.cpp:387-431 | For any event at WAIT_RR, what the next SEND_WINDOW sends: after RR the refill, after any REJ the whole window, after anything else nothing; what stays in the window stays in place, and the number moves on by what was read |
| ServerSpec.FillAppends | Go Back N (UDP)/Server.cpp:341-362 | Closed form of the filling loop: the window is filled at its end, what was read is queued behind what was queued, and the number moves on modulo 2^32 |
| ServerSpec.DataPassLeads | Go Back N (UDP)/Server.cpp:341-434 | A pass of the data phase ends in ERROR exactly if a call of it fails; a wait is resumed exactly for a stale RR or another type; silence, corruption, RR and REJ lead on to FILL_WINDOW; only SEND_WINDOW sends |
| ServerSpec.SendsUntilFailure | Go Back N (UDP)/Server.cpp:364-375 | The queue is sent from its front, as many packets as the calls that succeed, and exactly these leave it |
| ServerSpec.SilenceEnds | Go Back N (UDP)/Server.cpp:196-211 | Every pass of the state loop on a silent network leaves `init`, uses up a retry or moves towards the next wait |
| ServerSpec.ChildStartsWithInit | Go Back N (UDP)/Server.cpp:192-211 | The whole loop is a run of `init` on a prefix of the trace followed by the data phase on the rest |
| ServerTraces.ChildIsTrace | Go Back N (UDP)/Server.cpp:192-211 | The whole loop is the trace of single passes, then silence until it stops |
| ServerTraces.WaitsExactly | Go Back N (UDP)/Server.cpp:263-322 | A fresh child on any trace, while in `init`: awaited number, parameters and answers are read off the trace, and the counter is 10 less the timeouts since the last reception, less one if that was corrupt or ahead of the number awaited then |
| ServerTraces.LeavesInit | Go Back N (UDP)/Server.cpp:272-338 | It leaves with ERROR exactly if a call fails, ten retries are used up before the three parameters are there, or the file cannot be opened; else it is ready to read that file |
| ServerProgram.Server.constructor | Go Back N (UDP)/Server.cpp:163-169 | The fields with which the child is forked: sequence 1, INIT, ten retries, empty queues |
| ServerProgram.Server.RecvPacket | Go Back N (UDP)/Server.cpp:228-261 | Zeroing, recomputing, comparing and restoring the checksum gives the three results and the counter of `Receive` |
| ServerProgram.Server.TakeParameter | Go Back N (UDP)/Server.cpp:290-304 | The awaited packet moves the sequence on and sets the one parameter its type names |
| ServerProgram.Server.InitPass | Go Back N (UDP)/Server.cpp:272-322 | One pass of the loop of `init`, with its reply, as `InitStep` |
| ServerProgram.Server.Init | Go Back N (UDP)/Server.cpp:263-339 | The loop with its three local flags yields the state, the fields, the packets and the rest of the trace of `InitRun` |
| ServerProgram.Server.OpenFile | Go Back N (UDP)/Server.cpp:324-338 | Opening the file and resetting sequence and retries, or ERROR |
| ServerProgram.Server.FillWindow | Go Back N (UDP)/Server.cpp:341-362 | The loop over reads leaves queues, cursor and sequence as `Fill` does, also when a read fails, whenever its first read fits the payload array or there is none |
| ServerProgram.Server.SendWindow | Go Back N (UDP)/Server.cpp:364-375 | Exactly the queued packets are sent, in order, up to a failing send, and leave the queue |
| ServerProgram.Server.WaitRR | Go Back N (UDP)/Server.cpp:377-434 | Shift, resend, rewind or ignore, with the new counter and state |
| ServerProgram.Server.ShiftWindow | Go Back N (UDP)/Server.cpp:394-398 | The pop loop with its 32-bit counter terminates and drops the first `Acked` packets, also when the counter can never exceed k |
| ServerProgram.Server.DataPass | Go Back N (UDP)/Server.cpp:196-210 | One pass of the state loop after `init`, wherever it is defined, is one step of the model |
| ServerProgram.Server.Child | Go Back N (UDP)/Server.cpp:192-226 | On every trace on which it is defined the state loop ends, with the fields and sent packets of the step functions, in DONE, ERROR or without retries |
| ClientProgram.Client.constructor | Go Back N (UDP)/Client.cpp:27-40 | The fields of a new client |
| ClientProgram.Client.RecvPacket | Go Back N (UDP)/Client.cpp:105-140 | The same reception results and counter as on the server's side |
| ClientProgram.Client.WriteTo | Go Back N (UDP)/Client.cpp:142-149 | The bytes that `write` takes are appended to the output; a short `write` counts as success, a failing one appends none |
| ClientProgram.Client.Init | Go Back N (UDP)/Client.cpp:151-251 | The loop that moves its own index back yields the state, the packets sent and the rest of the trace of `InitFrom`, also when a send or `GetSocket` fails |
| ClientProgram.Client.Answered | Go Back N (UDP)/Client.cpp:214-240 | The index after an answer, before its increment, or the ERROR of a failing `GetSocket` |
| ClientProgram.Client.RecvPackets | Go Back N (UDP)/Client.cpp:253-306 | Output, sequence, state, retries and answer of one reception, with short or failing writes and failing sends |
| ClientProgram.Client.Run | Go Back N (UDP)/Client.cpp:76-103 | The state loop ends on every trace, with the fields and sent packets of the step functions |
| ClientTraces.RunIsTrace | Go Back N (UDP)/Client.cpp:76-103 | The whole loop is the trace of single turns, then silence until it stops |
| ClientTraces.AsksExactly | Go Back N (UDP)/Client.cpp:189-242 | A new client on any trace, while in `init`: it has sent exactly the packets that were due (the same again after silence, corruption and foreign RRs, packet k after REJ(k) with k no higher, else the next), and its counter is 10 less the deficit |
| ClientTraces.NeverAsks | Go Back N (UDP)/Client.cpp:197-203 | A client whose first `sendto` fails has sent nothing and stops with ERROR |
| ClientTraces.LeavesInit | Go Back N (UDP)/Client.cpp:193-250 | It leaves with ERROR exactly if a call fails or ten retries are used up, else to receive packet 0 with ten retries |
| ClientTraces.AcknowledgedInit | Go Back N (UDP)/Client.cpp:193-250 | A new client whose packets 0 to 4 are acknowledged in turn sends exactly these, in order, and goes on to receive |
| ClientTraces.ReceivesExactly | Go Back N (UDP)/Client.cpp:253-306 | A receiving client on any trace: ERROR exactly if a call failed, DONE exactly if it took the end of the file, else it goes on until ten retries are used up; output, answers, awaited number and counter are read off the trace |
| ClientTraces.NoErrorUnlessCallFails | Go Back N (UDP)/Client.cpp:287-305 | Without a failing reception, `write` or `sendto` a receiving client never stops with ERROR: a gap, silence and corruption leave it receiving |
| ClientTraces.TakenIsFront | Go Back N (UDP)/Client.cpp:142-149 | A `write` takes bytes from the front: all, as many as it says, or none |
| Transfers.PushSynced | Go Back N (UDP)/Server.cpp:344-358 | If the cursor stands behind the window, one read appends exactly the next packet of the file and the cursor stands behind it again |
| Transfers.FillSynced | Go Back N (UDP)/Server.cpp:341-362 | Filling keeps the base, and the full window is a run of the file with the cursor behind it |
| Transfers.FillOk | Go Back N (UDP)/Server.cpp:341-362 | After filling, the send queue is a tail of a full window |
| Transfers.SendOk | Go Back N (UDP)/Server.cpp:364-375 | What is sent are consecutive packets of the file from the window's tail, all of them unless a send fails; window and cursor stay |
| Transfers.AckOk | Go Back N (UDP)/Server.cpp:389-398 | After RR(k) with k at or above the base, the new base is min(k + 1, sequence), even for k beyond the window |
| Transfers.RewindOk | Go Back N (UDP)/Server.cpp:418-428 | A rewind to k whose product does not wrap empties the queues and puts the cursor on packet k |
| Transfers.WaitOk | Go Back N (UDP)/Server.cpp:387-433 | For any event (sequence, base) moves as in the abstract server `Moved` and the queues stay in order; the window stays a run of the file unless a rewind offset wraps, in which case only the cursor is lost |
| Transfers.AcceptOk | Go Back N (UDP)/Client.cpp:270-286 | The awaited packet of the file extends the output by its chunk and is acknowledged; the last one completes the file and is not |
| Transfers.ClientStepOk | Go Back N (UDP)/Client.cpp:253-306 | Any event but a foreign packet with the awaited number, written to the output, keeps the output a prefix that only grows, and every answer sound |
| Transfers.ServerStepOk | Go Back N (UDP)/Server.cpp:341-434 | Fed only sound answers, the server's base stays at or below what the client has stored and below the end, and it sends only packets of the file |
| EndToEnd.DeliveredPrefix | Go Back N (UDP)/Client.cpp:270-286 | In every state that a clean run reaches from the fork through losses, duplicates, reorderings, corruption, timeouts, errors, resends and rewinds the output is the file up to the awaited packet; on DONE it is the file |
| EndToEnd.OutputGrows | Go Back N (UDP)/Client.cpp:274-279 | Over any clean run a later output extends an earlier one |
| EndToEnd.AckSoundness | Go Back N (UDP)/Server.cpp:388-404 | With n packets written, n no more than the awaited number: RR(k) is in flight only if k < n, REJ(k) only if k <= n, and the base of an active server is at most n |
| EndToEnd.NothingWraps | Go Back N (UDP)/Server.cpp:418-428 | The last packet is never popped, the sequence stays at or below last + W, and a rewind offset lies inside the file and below 2^32 |
| EndToEnd.RetransmissionsAgree | Go Back N (UDP)/Server.cpp:344-358 | Two data packets ever sent with the same number are equal, whether resent or read again after a rewind |
| EndToEnd.RightExactly | Go Back N (UDP)/Client.cpp:270-286 | A run from the fork keeps the output right in every state it passes through if and only if it never hands a receiving client an answer of the handshake with the awaited number |
| EndToEnd.SafePastAnswers | Go Back N (UDP)/Client.cpp:270-286 | Once packet 4 of the file is written every run is clean, whatever is still in flight from the handshake |
| Recovery.RoundProgress | Go Back N (UDP)/Server.cpp:387-417 | A round without loss (a timeout, a corrupt packet or a gap, then REJ, resent window, RRs) is a run that moves the base a whole window on, or completes the transfer if the window held the last packet |
| Recovery.RoundsComplete | Go Back N (UDP)/Client.cpp:257-286 | Exactly (last - base) / W + 1 such rounds complete the transfer, from whatever state of the invariant |
| Recovery.GapIsFilled | Go Back N (UDP)/Client.cpp:287-305 | A packet ahead of the awaited one prompts a round, even of a client on its last retry: the awaited packet, if in the window, is written, and the client has ten retries |
| Recovery.AlwaysRecoverable | Go Back N (UDP)/Client.cpp:257-272 | From every state of the data phase that a clean run reaches from the fork, neither side having given up and the client surviving one more timeout, some continuation delivers the whole file |
| Recovery.RewindsHappen | Go Back N (UDP)/Server.cpp:418-428 | Over the reordering network the rewind branch is reached from every fork for every packet before the last |
| SeekLimit.CursorSafeExactly | Go Back N (UDP)/Server.cpp:421-422 | In all states that clean runs reach from the fork window and cursor agree with the file, if and only if the offset of every packet before the last fits 32 bits |
| SeekLimit.OutputSafeExactly | Go Back N (UDP)/Server.cpp:421-422 | All clean runs from the fork keep the output right, if and only if the offset of every packet before the last fits 32 bits |
| Handshake.LeadBound | Go Back N (UDP)/Client.cpp:193-241 | While the child is in `init` the client's index and every request in flight are at most one ahead of the child, nothing has been written, and a client past its handshake has left the child at packet 4 |
| Handshake.HandshakeAgreement | Go Back N (UDP)/Server.cpp:267-305 | The child has buffer size, window size and name exactly from sequence 3, 4 and 5 on, equal to the client's modulo 65536, and keeps them with the right file in the data phase |
| Handshake.ForkStartReached | Go Back N (UDP)/Client.cpp:193-225 | A new client whose packet 0 is answered by RR(0) has sent packets 0 and 1 and is the client of the fork |
| Handshake.TakesWhatWasSent | Go Back N (UDP)/Server.cpp:163-169 | In every run from the fork a child that waits for packet q has been sent packets 1 to q - 1, and a child in the data phase packets 1 to 4 |
| EndToEnd.GoBack | Go Back N (UDP)/Server.cpp:284-312 | Without loss a fresh child rejects packet 2: REJ(1) is sent, the client goes back to packet 1, and only then the child waits for packet 2 |
| EndToEnd.HandshakeCompletes | Go Back N (UDP)/Client.cpp:193-250 | Without loss both sides reach the data phase with the client's parameters |
| EndToEnd.SafeFromForkExactly | Go Back N (UDP)/Client.cpp:274-285 | From the fork over the reordering network the output is always the right prefix if and only if the file is shorter than one buffer |
| Ordered.OrderedRefines | Go Back N (UDP)/Server.cpp:192-211 | Every run over ordered channels is matched by a run of the reordering network with the same two machines |
| Ordered.OrderedRunsAreClean | Go Back N (UDP)/Client.cpp:270-286 | Every state that an ordered run reaches from the fork has a clean run of the reordering network from its fork to the same two machines |
| Ordered.DeliveredInOrder | Go Back N (UDP)/Client.cpp:270-286 | Over ordered channels the whole transfer, handshake included, keeps the output a prefix and on DONE the file, for files of any length |
| Ordered.SequenceRanges | Go Back N (UDP)/Server.cpp:343-358 | In every reachable state, also after the server has stopped, data numbers in flight lie in [next - W, next + W) and RR numbers below next; RR numbers are at or above base - W while the server runs |
| Ordered.RejectsAboveBase | Go Back N (UDP)/Client.cpp:262-292 | Every REJ in flight is at or above the base and above every RR ahead of it |
| Ordered.NoRewind | Go Back N (UDP)/Server.cpp:411-429 | The rewind branch is never taken, and base <= next <= sequence = base + W at every WAIT_RR |
| Ordered.NeverBack | Go Back N (UDP)/Server.cpp:394-428 | Over any ordered run base and sequence never decrease |
| OrderedRecovery.AlwaysRecoverable | Go Back N (UDP)/Client.cpp:257-272 | From every patient state of the data phase that a run over ordered channels reaches from the fork some continuation delivers the whole file, of any length |
| HandshakeLoop.HandshakeCanLoop | Go Back N (UDP)/Server.cpp:284-286 | From every fork a run that loses one answer leads to a state to which two loss-free deliveries lead back: the handshake can go on for ever without progress |
| HandshakeLoop.StallEndsExactly | Go Back N (UDP)/Client.cpp:229-239 | From such a stall a run in which the child times out or hears something corrupt at most k times can move a side on if and only if k >= 1; losses and the client's timeouts do not matter |
| Completion.CompletesExactly | Go Back N (UDP)/Server.cpp:284-333 | From every state that an ordered run reaches from the fork, neither side having stopped and the client surviving one more timeout, some continuation delivers the whole file if and only if: the child is in `init` and the client is too or packet 4 is on its way, or the child is past it and the client receives or what is or will be on its way brings it to that |
| Completion.ChildCanBeLeftBehind | Go Back N (UDP)/Client.cpp:226-233 | From every fork a run with one loss leads to a receiving client and a child that waits in vain for packet 4 |
| Completion.ClientCanBeLeftBehind | Go Back N (UDP)/Server.cpp:341-385 | From every fork some run leads to a waiting child and a client that waits in vain for the end of its handshake |
| ClientTraces.ClientGivesUpExactly | Go Back N (UDP)/Client.cpp:105-140 | While it receives, the counter is 10 less the timeouts since the last reception, less one if that was corrupt; it has given up exactly when that sum has reached 10 |
| Retries.ServerGivesUpExactly | Go Back N (UDP)/Server.cpp:228-261 | Between waits the server stops with ERROR exactly if a reception fails before it has given up; it gives up exactly when the same sum has reached 10; otherwise it waits again with 10 less that sum |
| Retries.NoErrorUnlessBroken | Go Back N (UDP)/Server.cpp:383-384 | Without a failing reception a waiting server never stops with ERROR, however many seconds are silent |

## Left out

- Sockets, addresses, the port in the listener's answer, `fork`, signals, `select` and console output: their effect is an event (silence, a failed reception, a packet) or a failing call. Every packet of the client may reach the child and the reverse, whichever socket it was sent to.
- The listener `Server::Run`, except for the state in which it forks the child. A second connection request is not modelled.
- The body of `in_cksum` and the error injection of `cpe464.h`: the library is not part of this model. Corruption is any delivery of a packet whose checksum is wrong.
- `retransmitpkt` and `ackpkt`, which neither program calls, and the `Stop and Wait (TCP)` directory, whose sources are unfinished.
- A promise that the handshake progresses, and completion of the server: the code provides neither. What holds instead is proved as `HandshakeLoop.StallEndsExactly` and `Completion.CompletesExactly`.
- Packet numbers beyond 2^32: the step functions wrap as the code does, the run theorems assume that the last number plus the window size does not.
- Reads longer than `PKT_DMAX`, `front()` of an empty window and names that do not fit their packet: undefined in the source. The methods of the server exclude the first two.
- ServerProgram.Server.Child: starts only from the fields of a fresh child, and covers the traces on which the source is defined (`ServerSpec.ChildDefined`); `ServerSpec.SaneChildIsDefined` names the parameters that guarantee it.
- Short writes in the theorems about both machines: the client's methods follow them, the runs assume a disk that takes all of a `write` or fails it.
- The deques are sequences held in fields; their storage is not modelled.
