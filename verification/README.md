# Power-supply controller: verified model

A Dafny 4.11 model of the parts of the controller whose behaviour spans many
packets, samples or clock ticks, with proofs of what they keep over whole runs.
`dafny verify dfyconfig.toml` checks the project.

Each component is a step function over a record of its state (what one packet,
poll or rising clock edge does), a class whose methods change the same fields in
place and are proved to do exactly that step, and lemmas about runs of the step
function. In the hardware models every register takes its new value from the old
ones, as signals do.

- **TFTP server** (`TftpServer`, `TftpSession`, `TftpFile`, `TftpWrite`,
  `TftpRead`, and for progress `TftpWriteProgress`, `TftpReadProgress`). Callbacks on
  the one shared session, then write and read transfers against an honest lock-step peer (sections 2, 5 and 6 of RFC 1350) over a
  network that loses, duplicates and reorders. A packet is not delivered once the
  transfer is 2^16 blocks past it, and none comes from another session; without
  that bound the property fails (`TftpWrite.StaleBlockIsWritten`).
- **PSC messages and their server** (`PscMessage`, `PscListener`, `PscConnections`).
  Framing over streams that `send` and `recv` cut anywhere and may fail anywhere, and
  every interleaving of accepts, handler exits and sends. `PscConnections` tells what
  each connection carries from the events alone. A tenure is the life of one
  accepted connection, so stream properties do not depend on descriptor numbers.
- **Snapshot ring** (`DdrRing`, `AdcWriter`, `AdcTriggers`, `TriggerLatch`,
  `SnapshotReader`, `TriggerPoller`, `SnapshotEndToEnd`, `SnapshotSystem`). The burst writer with
  its AXI handshake and the memory behind it, the pointer latches, the poller, and
  the reader that cuts a window out of the ring. The writer uses 200001 slots and
  the reader treats the ring as 200000. `SnapshotSystem` runs all of them together.
- **Fault interlock** (`FaultBlock`, `FaultInterlock`). Debounce counters, latches,
  mask, clear and the ON output, which `FaultInterlock` tells from the inputs alone. Each fault condition is an arbitrary Boolean per sample and the
  count limits are constant during a run, because the code tests for equality.
- **DAC set-point path** (`SmoothRamp`, `DacGainOffset`, `DacSerialiser`,
  `DacReceiver`). The raised-cosine ramp with the phase increment computed for it,
  offset and gain with saturation, the serial frames and the DAC that takes them. The cosine is any value in
  [-2^20, 2^20].
- **Event timestamps** (`TimestampDecoder`). The serial seconds decoder and its
  encoder.

`Common` holds shared types and sequence facts.

## What the code does not do

Some properties one would expect hold only under a condition. The code is modelled
as it is, and the condition is proved exactly:

- A transfer is closed to third parties if and only if the peer's port is not 0
  and its address is not the any-address (`TftpSession.ExclusiveSession`).
- A write transfer whose ACK 0 is lost can never be completed, because the repeated
  request is refused while the session is open. Every other open write transfer can be,
  by a run that loses nothing more (`TftpWriteProgress.CompletesIff`).
- A read transfer for whose current block the server found no buffer can never be
  completed: nothing was sent, nothing is resent, and no earlier acknowledgement moves
  it. Every other open read transfer can be (`TftpReadProgress.CompletesIff`).
- After a failed block of 128 bytes `psc_recvskip` asks for everything that was left,
  into the same 128 bytes. No read asks for more than the buffer holds if and only if
  no block fails while more than 128 bytes are left (`PscMessage.SkipAsks`). It writes
  past the buffer if and only if such a block fails and the next read is given more
  than 128 bytes (`PscMessage.SkipLength`, with two inputs in
  `PscMessage.SkipOverruns`). Every skip that succeeds ends in the right place. What a
  caller can see beforehand: no stream at all makes a message overrun a buffer if and
  only if its body is at most 128 bytes longer than the receiver's buffer
  (`PscMessage.SkipSafe`, `BodySafe`).
- The ring writer drops `wvalid` one clock after offering the last word of a burst.
  If the memory is not ready in that clock the writer stops for good
  (`AdcWriter.BurstEndsIff`).
- The reader's window is the modular one for every trigger address if and only if
  neither part exceeds 200000 samples and both together are at most 200001
  (`SnapshotReader.WindowExact`).
- A window that passes 0x11E84800 ends one record later than its size says, because
  the reader skips the writer's extra slot. The poller waits a tenth of a second for
  each 1000 samples, so such a window is whole if and only if the writer has also
  finished that one record more (`SnapshotSystem.SentWindowKept`).
- A reading in a snapshot of channel 1 is converted by the digital-loop register as it
  is when the message is made, which can be long after the record was written, and with
  the loop off the error column lacks the cast to a signed number. The eight readings of
  a record come out as what they meant if and only if the channel is not 1, or the loop
  is as it was when the record was written and, with the loop off, the error is not
  negative (`SnapshotEndToEnd.RecordMeant`; what is shown instead is in
  `SnapshotEndToEnd.ErrorShown`).
- The counters of fault bits 6 to 10 survive a reset. After any run that ends in a reset,
  with resets of any number and length, a bit is debounced right in every further run if
  and only if it is one of bits 0 to 5, its limit is 0, its last sample did not count, or
  a clear was pending (`FaultBlock.DebounceAfterReset`, with a run that goes wrong in
  `FaultBlock.ResetBreaksDebounce`).
- The subtraction of the DAC offset wraps in 20 bits: the largest set-point with an
  offset of -1 comes out as the smallest, unsaturated (`DacGainOffset.FullScaleFlips`).
  With a gain code above 0 and at most 2^21 in 20-bit mode, or other than 0, above -2^20
  and at most 2^20 in 18-bit mode, a set-point comes out as the ideal clamp if and only
  if its difference to the offset fits 20 bits (`DacGainOffset.WideRightFor`,
  `NarrowRightFor`). In 20-bit mode every set-point does if and only if the offset is 0
  and the gain code is positive and at most 2^21 (`WideGainExact`); in 18-bit mode if and
  only if the gain code is 0, or the offset is 0 and the code above -2^20 and at most
  2^20, or the offset is -1 and the code at most two outside that range
  (`NarrowGainExact`).
- Time bits sent in the first two clocks after a latch event are read as 0; the
  decoded second is right if and only if those bits are 0
  (`TimestampDecoder.LatchedSeconds`).
- `Calc_WriteSmooth` divides by a sample count of 0 for a set-point change that lasts
  less than one sample, an unchanged set-point included. Its arithmetic is defined if
  and only if the ramp rate is positive and the change lasts at least one sample and
  less than 2^32 (`SmoothRamp.DefinedIff`).
- The phase increment is rounded to a float. A ramp computed for n samples takes at least
  the n + 3 ticks it should if and only if n is none of 1, 2, 4, 9 and 21, which take one
  tick less (`SmoothRamp.SampleCount`, `RampOfSamples`).
- A phase increment of 0, which more than P samples produce, never ends the ramp
  (`SmoothRamp.ZeroIncrementNeverEnds`).

## Model

| member | source | states |
|---|---|---|
| TftpServer.Server.Init | src/sw/src/tftp_server.c:412-417 | the idle state after tftp_init |
| TftpServer.Server.CloseHandle | src/sw/src/tftp_server.c:97-115 | peer forgotten, held block freed, one timeout cancelled, file closed if it was open |
| TftpServer.Server.ResendData | src/sw/src/tftp_server.c:156-171 | the held block goes to the current peer |
| TftpServer.Server.SendData | src/sw/src/tftp_server.c:173-201 | frees the held block, reads the next, sends and keeps it, or reports the read error and closes |
| TftpServer.Server.Recv | src/sw/src/tftp_server.c:203-364 | new session state, packets sent and file calls for every packet from anyone |
| TftpServer.Server.RecvRequest | src/sw/src/tftp_server.c:225-254 | a request queues a timeout even when it is then rejected; busy and malformed requests are refused |
| TftpServer.Server.OpenSession | src/sw/src/tftp_server.c:256-277 | the file is opened and the peer adopted, answered by ACK 0 or the first block |
| TftpServer.Server.RecvData | src/sw/src/tftp_server.c:282-320 | the awaited block is written, the previous one acknowledged again, any other refused |
| TftpServer.Server.RecvAck | src/sw/src/tftp_server.c:322-356 | the current block's ACK sends the next block, or closes after a short one |
| TftpServer.Server.Timer | src/sw/src/tftp_server.c:366-389 | re-arms while open; resends or closes after the timeout |
| TftpServer.RequestAccepted | src/sw/src/tftp_server.c:240-254 | a request is accepted iff name (at most 20 bytes) and mode (at most 7) are terminated, and then exactly those are opened |
| TftpSession.CloseDiscipline | src/sw/src/tftp_server.c:97-115 | closing leaves the idle state and ends the context's call sequence |
| TftpSession.NextDataDiscipline | src/sw/src/tftp_server.c:173-201 | sending the next block keeps the invariant and only reads, or reads and closes |
| TftpSession.RequestDiscipline | src/sw/src/tftp_server.c:225-280 | a request keeps the invariant and makes at most one open call, first |
| TftpSession.DataDiscipline | src/sw/src/tftp_server.c:282-320 | DATA keeps the invariant and never calls the context after its close |
| TftpSession.StepDiscipline | src/sw/src/tftp_server.c:203-389 | every packet and timer call keeps: closed means no held block, port 0, any-address; open means a timeout is queued |
| TftpSession.SessionDiscipline | src/sw/src/tftp_server.c:203-389 | over every run the context sees (open, only reads or only writes, one close) repeated, nothing after a close |
| TftpSession.ExclusiveSession | src/sw/src/tftp_server.c:212-217 | strangers leave an open session unchanged iff the peer's port is not 0 and its address not the any-address |
| TftpSession.Refused | src/sw/src/tftp_server.c:230-362 | packets out of place are answered by their error code and change only the time of the last packet |
| TftpSession.RequestOpens | src/sw/src/tftp_server.c:240-257 | a readable request to a closed server opens the file and mode it names |
| TftpSession.RefusedRequest | src/sw/src/tftp_server.c:236-262 | an unreadable request or a file that does not open leaves the server closed, with the right error |
| TftpSession.OneExpiry | src/sw/src/tftp_server.c:366-389 | one timer call takes one off the countdown to the close and says what it sends |
| TftpSession.Countdown | src/sw/src/tftp_server.c:366-389 | an open session that hears nothing is silent, then resends once per call, then closes once |
| TftpSession.AbandonedSessionCloses | src/sw/src/tftp_server.c:366-389 | after the last packet it closes at exactly the 16th timer call with exactly 5 resends when a block is held, at the 11th with none when not |
| TftpWrite.AwaitedBlock | src/sw/src/tftp_server.c:296-312 | the awaited block is written once and answered by exactly its ACK, or by an error if the write failed; a short or failed one closes |
| TftpWrite.OtherBlock | src/sw/src/tftp_server.c:313-319 | the previous block is acknowledged again across the 16-bit wrap, any other is an error; neither is written |
| TftpWrite.AcceptedWrite | src/sw/src/tftp_server.c:256-277 | an accepted write request is answered by ACK 0 and the session is its sender's |
| TftpWrite.DeliverData | src/sw/src/tftp_server.c:282-320 | any DATA packet still in the network keeps the blocks written a prefix of the file |
| TftpWrite.RunInv | src/sw/src/tftp_server.c:282-320 | the transfer invariant holds over every run of network, peer, timer and strangers |
| TftpWrite.WrittenIsPrefix | src/sw/src/tftp_server.c:282-320 | what is written is always a prefix of the sender's file, each block once and in order across the 16-bit wrap |
| TftpWrite.CloseMeansComplete | src/sw/src/tftp_server.c:300-312 | a packet closes the session only after a write error or with the whole file written |
| TftpWrite.StaleBlockIsWritten | src/sw/src/tftp_server.c:296-312 | a block that returns after exactly 2^16 further blocks is written again, so the age bound is tight |
| TftpWriteProgress.Completes | src/sw/src/tftp_server.c:282-320 | from every reachable open state in which ACK 0 is not lost a run without further loss or failure writes the whole file and closes |
| TftpWriteProgress.CompletesIff | src/sw/src/tftp_server.c:225-320 | an open write transfer can still be completed iff ACK 0 has arrived or is still on the way |
| TftpWriteProgress.AcceptedCompletes | src/sw/src/tftp_server.c:225-320 | an accepted request whose ACK 0 was sent leads to the whole file |
| TftpRead.SendsNext | src/sw/src/tftp_server.c:173-201 | block n + 1 is sent to the peer with its own number and contents and kept, a read error is reported and closes, and without a buffer nothing is sent |
| TftpRead.AcceptedRead | src/sw/src/tftp_server.c:256-277 | an accepted read request is answered by block 1 and the session is its sender's |
| TftpRead.AckIsCurrent | src/sw/src/tftp_server.c:336-340 | an ACK carries the current number iff it is the current block's, and then the receiver has it |
| TftpRead.RunInv | src/sw/src/tftp_server.c:173-201 | the transfer invariant holds over every run of network, receiver, timer and strangers |
| TftpRead.ReceivedIsPrefix | src/sw/src/tftp_server.c:173-201 | the receiver always holds a prefix of the file and every DATA packet n mod 2^16 carries the n-th piece |
| TftpRead.ReadOnlyAfterAck | src/sw/src/tftp_server.c:336-350 | block n + 1 is read only when the ACK of n arrives |
| TftpRead.DuplicateAckSendsNothing | src/sw/src/tftp_server.c:336-340 | an ACK of an earlier block sends no DATA and leaves the transfer where it was (section 4.2.3.1 of RFC 1123) |
| TftpRead.CloseMeansComplete | src/sw/src/tftp_server.c:342-353 | a packet closes the session only after a read error or with the final short block acknowledged and the whole file received |
| TftpReadProgress.Completes | src/sw/src/tftp_server.c:173-389 | from every reachable open state whose current block was read a run without loss or failure, timer calls included, brings the whole file to the receiver and closes |
| TftpReadProgress.CompletesIff | src/sw/src/tftp_server.c:156-389 | an open read transfer can still be completed iff the server had a buffer for the current block |
| TftpReadProgress.AcceptedCompletes | src/sw/src/tftp_server.c:225-389 | an accepted read request whose first block was read leads to the whole file |
| PscMessage.PscSendAll | src/sw/src/pscmsg.c:28-44 | the stream gets the buffer, or a prefix of it up to the first failing send |
| PscMessage.PscSendHead | src/sw/src/pscmsg.c:75-87 | the 8 header bytes, big-endian, sent as a whole or cut by a failure |
| PscMessage.PscSendMsg | src/sw/src/pscmsg.c:89-102 | header then body; nothing of the body after a failed header |
| PscMessage.PscRecvAll | src/sw/src/pscmsg.c:46-62 | the next n bytes of the stream, or those before the first failing recv; an overrun once more bytes come than the caller's buffer holds |
| PscMessage.PscRecvSkip | src/sw/src/pscmsg.c:64-73 | blocks of 128 bytes, after a failed one a last read of all that is left into the same 128 bytes, and the largest length it asks for |
| PscMessage.PscRecvHead | src/sw/src/pscmsg.c:126-144 | reads 8 bytes, refuses a wrong marker, else returns id and length |
| PscMessage.PscRecvMsg | src/sw/src/pscmsg.c:146-173 | header, then body; outputs untouched when the header fails |
| PscMessage.PscRecvBody | src/sw/src/pscmsg.c:161-172 | at most the buffer is stored and the rest skipped |
| PscMessage.HeadRoundTrip | src/sw/src/pscmsg.c:75-144 | a header parses to id and length iff it is their encoding |
| PscMessage.HeadBytes | src/sw/src/pscmsg.c:75-87 | the eight bytes of a header: "PS", id and length with the most significant byte first |
| PscMessage.SendMsgFrames | src/sw/src/pscmsg.c:89-102 | a send puts its whole frame on the wire iff it succeeds, else a proper prefix |
| PscMessage.SendManyFrames | src/sw/src/pscmsg.c:89-102 | successful sends put exactly their frames on the wire, in order |
| PscMessage.SkipAsks | src/sw/src/pscmsg.c:64-73 | no read asks for more than the 128-byte buffer holds iff no block fails while more is left |
| PscMessage.SkipLength | src/sw/src/pscmsg.c:64-73 | a successful skip ends exactly at its target and no block failed in it; the buffer overruns iff a block failed and the next read is given more than 128 bytes |
| PscMessage.SkipOverruns | src/sw/src/pscmsg.c:64-73 | a timeout in the first block of a 200-byte skip, after 100 bytes or after none, overruns the buffer |
| PscMessage.SkipSafe | src/sw/src/pscmsg.c:64-73 | no script and no stream overrun a skip's buffer iff at most 128 bytes are skipped |
| PscMessage.BodySafe | src/sw/src/pscmsg.c:146-173 | no stream overruns a buffer iff the body is at most 128 bytes longer than the receiver's |
| PscMessage.RecvMsgCorrect | src/sw/src/pscmsg.c:146-173 | for every splitting and failure a successful receive returns the message cut to the buffer and ends exactly at the next header; without failing reads it succeeds |
| PscMessage.HeadRefused | src/sw/src/pscmsg.c:126-140 | a header without "PS" is refused after its eight bytes, without a message |
| PscMessage.HeadEnds | src/sw/src/pscmsg.c:46-62 | a stream that ends in a header is a lost connection |
| PscMessage.BodyEnds | src/sw/src/pscmsg.c:146-173 | so is one that ends in the stored part of a body, and no message comes out |
| PscMessage.ErrorReported | src/sw/src/pscmsg.c:46-62 | an error of recv() is reported as it is |
| PscMessage.RecvManyCorrect | src/sw/src/pscmsg.c:146-173 | repeated receives return all messages in order and end after the last frame |
| PscMessage.RoundTrip | src/sw/src/pscmsg.c:28-173 | every list of messages survives every splitting by short sends and receives |
| PscListener.FirstFree | src/sw/src/listener.c:61-72 | the lowest free slot, or none |
| PscListener.PscKey.ClientAlloc | src/sw/src/listener.c:55-76 | takes the lowest free slot and changes no other bit |
| PscListener.PscKey.Connect | src/sw/src/listener.c:172-190 | a connection gets a slot and its socket, or is dropped when all four are used |
| PscListener.PscKey.SendTo | src/sw/src/listener.c:258-271 | one client's frame is sent; a failure closes its socket for sending |
| PscListener.PscKey.Send | src/sw/src/listener.c:235-256 | every used client with an open socket gets the frame, in slot order |
| PscListener.PscKey.ClientFree | src/sw/src/listener.c:78-90 | the handler's slot is freed and its socket forgotten |
| PscListener.ConnectInv | src/sw/src/listener.c:172-190 | accepting keeps slots, owners and streams consistent |
| PscListener.SendSlotInv | src/sw/src/listener.c:258-271 | sending to one client does, whether or not it fails |
| PscListener.BroadcastInv | src/sw/src/listener.c:235-256 | sending to all does |
| PscListener.ExitInv | src/sw/src/listener.c:226-229 | a handler's exit does |
| PscListener.ServerSafety | src/sw/src/listener.c:55-271 | over every interleaving bit i is set iff one handler owns slot i, and each connection carried whole frames in order, then at most part of one |
| PscListener.ClosedStaysSilent | src/sw/src/listener.c:235-271 | after the partial frame, or the handler's exit, a connection carries nothing more in any run |
| PscConnections.SlotsBounded | src/sw/src/listener.c:61-72 | a slot is free iff fewer than four handlers live |
| PscConnections.BroadcastServes | src/sw/src/listener.c:235-256 | a broadcast is sent on every open connection and no other, and closes exactly those on which it fails |
| PscConnections.ConnectionsFromEvents | src/sw/src/listener.c:55-271 | over every interleaving: who is accepted, which handlers live, and for each connection exactly what it has carried and whether it is open, from the events alone |
| PscConnections.NeverFailingCarriesAll | src/sw/src/listener.c:235-271 | a connection whose sends do not fail carries exactly the frames meant for it |
| DdrRing.SlotNext | src/hw/hdl/adc2ddr.vhd:194-198 | the writer's slots go round after slot 200000 |
| AdcWriter.Adc2Ddr.constructor | src/hw/hdl/adc2ddr.vhd:83-90 | the state after reset, over whatever the memory holds |
| AdcWriter.Adc2Ddr.AcceptWord | src/hw/hdl/adc2ddr.vhd:100-108 | the memory's side of the incrementing burst: a word is stored when valid and ready meet |
| AdcWriter.Adc2Ddr.Move | src/hw/hdl/adc2ddr.vhd:92-204 | the state machine: trigger edge, address handshake, forty words, response, next address |
| AdcWriter.Adc2Ddr.Tick | src/hw/hdl/adc2ddr.vhd:80-206 | one rising edge of writer and memory |
| AdcWriter.WordOnBus | src/hw/hdl/adc2ddr.vhd:122-184 | the word on the bus is always the next word of the current record |
| AdcWriter.AcceptStores | src/hw/hdl/adc2ddr.vhd:122-190 | an accepted word extends the current record in its slot and disturbs no other record |
| AdcWriter.StepInv | src/hw/hdl/adc2ddr.vhd:80-206 | every edge keeps the writer's invariant |
| AdcWriter.RunInv | src/hw/hdl/adc2ddr.vhd:80-206 | so does every run in which the memory answers only complete bursts |
| AdcWriter.RecordsKept | src/hw/hdl/adc2ddr.vhd:92-201 | every record not yet overwritten is whole in slot (n - 1) mod 200001 with counter n mod 2^32, and the pointer is that of the last record begun |
| AdcWriter.LastWordLost | src/hw/hdl/adc2ddr.vhd:188-201 | once the last word is lost the writer never leaves AWAITRESP |
| AdcWriter.BurstEndsIff | src/hw/hdl/adc2ddr.vhd:180-201 | the burst can end if the memory is ready in the clock after WRDLAST and never otherwise |
| AdcTriggers.TriggerRecorded | src/hw/hdl/adc2ddr.vhd:92-204 | with a ready memory a trigger that finds the writer idle makes one record in 44 clocks, word j of the sample at clock j + 2 |
| AdcTriggers.EveryTriggerRecorded | src/hw/hdl/adc2ddr.vhd:92-204 | over any number of triggers one record for each |
| AdcTriggers.AddressWaits | src/hw/hdl/adc2ddr.vhd:113-120 | until the memory takes the address the writer does nothing |
| AdcTriggers.RecordsFromTriggers | src/hw/hdl/adc2ddr.vhd:83-201 | from reset each of the last 200001 triggers has its record in its slot, word by word, and the pointer is that of the last |
| TriggerLatch.TriggerLatches.Tick | src/hw/hdl/ps_io.vhd:608-724 | one rising edge of all seventeen latches |
| TriggerLatch.Untouched | src/hw/hdl/ps_io.vhd:631-722 | without a rising edge of its trigger a latch keeps its value |
| TriggerLatch.HoldsLastEdge | src/hw/hdl/ps_io.vhd:631-722 | a latch holds the pointer and time of the last rising edge of its trigger |
| TriggerLatch.ThroughResets | src/hw/hdl/ps_io.vhd:608-722 | resets clear the address only, and a line high before and after them has not risen |
| SnapshotReader.CopyWords | src/sw/src/snapshots.c:151-274 | ten numbers per record, each the right word with its cast and scale factor: header, counter and the channel's eight, with the digital-loop columns of channel 1 |
| SnapshotReader.CopyDataChan | src/sw/src/snapshots.c:94-278 | appends ten numbers for each record of a stretch; nothing for a channel outside 1 to 4 |
| SnapshotReader.ReadDMABuf | src/sw/src/snapshots.c:282-345 | the message becomes the window, and what lies behind it is untouched |
| SnapshotReader.PlanIsPieces | src/sw/src/snapshots.c:305-341 | the 32-bit address arithmetic of the three cases cuts whole slots |
| SnapshotReader.PiecesSound | src/sw/src/snapshots.c:305-341 | every stretch of a window that fits lies inside the ring and they add up to the window |
| SnapshotReader.WindowIsModular | src/sw/src/snapshots.c:282-345 | sample k comes from ring slot (i - pre + k) mod 200000 for every trigger slot, the one at 0x11E84800 included |
| SnapshotReader.WindowExact | src/sw/src/snapshots.c:285-341 | that holds for all trigger slots iff pre and post are at most 200000 each and 200001 together |
| SnapshotReader.WindowGoesWrong | src/sw/src/snapshots.c:305-341 | for a longer window a trigger slot and a sample that are wrong |
| SnapshotReader.RightIsShort | src/sw/src/snapshots.c:305-341 | a window that is right throughout has at most 600000 samples, so the 32-bit arithmetic cannot have wrapped into a right answer |
| SnapshotReader.WindowWord | src/sw/src/snapshots.c:94-345 | each of the ten numbers of sample k is the chosen word of that slot's record, converted |
| SnapshotEndToEnd.ShownSlot | src/sw/src/snapshots.c:282-345 | which record number a sample shows, the writer's extra slot included |
| SnapshotEndToEnd.CountSteps | src/hw/hdl/adc2ddr.vhd:194-198 | consecutive samples show consecutive records but for one record where the window passes 0x11E84800 |
| SnapshotEndToEnd.OneSkip | src/hw/hdl/adc2ddr.vhd:194-198 | a window has at most one such place |
| SnapshotEndToEnd.RecordLayout | src/hw/hdl/adc2ddr.vhd:122-184 | the forty words of a record by name |
| SnapshotEndToEnd.WindowReads | src/sw/src/snapshots.c:282-345 | in every state of the writer a window that is complete and not overwritten shows header and record number, and each reading under the name of its column iff loop and sign allow |
| SnapshotEndToEnd.ChosenIsReading | src/sw/src/snapshots.c:151-274 | where the reader looks for a channel's words is where the writer puts them |
| SnapshotEndToEnd.CountColumn | src/hw/hdl/adc2ddr.vhd:98-123 | CNT words of a window rise by 1, and by 2 exactly where it passes 0x11E84800 |
| SnapshotEndToEnd.LatchHolds | src/hw/hdl/ps_io.vhd:608-724 | the latch points at the record last begun when its trigger rose |
| SnapshotEndToEnd.MeantIff | src/sw/src/snapshots.c:158-183 | one reading converted is what it meant when its word was written iff its channel and column do not depend on the digital loop, or the loop is unchanged and the uncast error not negative |
| SnapshotEndToEnd.RecordMeant | src/sw/src/snapshots.c:158-183 | all eight readings of a record are what they meant iff not channel 1, or the loop as at writing and, with the loop off, no negative error |
| SnapshotEndToEnd.ErrorShown | src/sw/src/snapshots.c:170-183 | otherwise the error column is an integer taken for a float, a float taken for an integer, or 2^32 too high |
| SnapshotEndToEnd.SnapshotIsWindow | src/sw/src/snapshots.c:282-345 | from reset, over every run of writer and latches, the window cut at the latched address shows those records, word by word, and a reading is what it meant iff it matches |
| TriggerPoller.TriggerInfo.constructor | src/sw/src/snapshots.c:489-520 | every configured window, by kind and channel: 50000 samples either side, or 8000 after for inj; all fit ring and message |
| TriggerPoller.TriggerInfo.ProcessTrigger | src/sw/src/snapshots.c:367-387 | a new address starts the wait, the wait counts passes, then the window is due |
| TriggerPoller.TriggerInfo.Poll | src/sw/src/snapshots.c:393-399 | one pass: the register is read only when idle, and a window that is due is sent and the flags reset |
| TriggerPoller.WaitsThenSends | src/sw/src/snapshots.c:378-386 | while waiting the register is ignored and the address is frozen |
| TriggerPoller.SendsExpected | src/sw/src/snapshots.c:350-387 | for every sequence of register values the loop sends exactly the expected addresses at the expected passes |
| TriggerPoller.OutputsEachOnce | src/sw/src/snapshots.c:350-387 | each noticed address is sent once, posttrigpts / 1000 passes later, and none seen while idle is missed |
| TriggerPoller.SettledAddressSent | src/sw/src/snapshots.c:547-564 | an address that stays in its register is the last one sent |
| SnapshotSystem.StepInv | src/hw/hdl/ps_io.vhd:608-724 | every clock keeps the register on the record last begun at its trigger's last edge |
| SnapshotSystem.RunInv | src/hw/hdl/ps_io.vhd:608-724 | so does every run, and a register that changes moves to a record begun no earlier than the run's start |
| SnapshotSystem.SendsFresh | src/sw/src/snapshots.c:367-387 | a trigger is noticed at most one wait after some pass in which its register still showed another address |
| SnapshotSystem.SentWindowKept | src/sw/src/snapshots.c:547-564 | with at least 1000 records between passes every window sent is whole and not overwritten, iff enough records came before the trigger and, if it passes 0x11E84800, one more after it |
| SnapshotSystem.SentMessageShows | src/sw/src/snapshots.c:350-362 | and then each number of the message sent is that of its record, and a reading is what it meant iff loop and sign allow |
| SnapshotSystem.SentFromReset | src/sw/src/snapshots.c:547-564 | both hold from a reset of the hardware and a poller as initialised |
| FaultBlock.Block.Check | src/hw/hdl/fault_block.vhd:222-231 | one debounce counter at a 10 kHz pulse, wrapping at its width |
| FaultBlock.Block.CheckAll | src/hw/hdl/fault_block.vhd:216-376 | all eleven counters, bits 3 and 4 held off by park and set-point change |
| FaultBlock.Block.Latch | src/hw/hdl/fault_block.vhd:392-401 | thirteen latches, set by their live bit and cleared by the clear pulse |
| FaultBlock.Block.MainLogic | src/hw/hdl/fault_block.vhd:200-407 | the main fault process, with the counters that reset leaves alone |
| FaultBlock.Block.ClearEdge | src/hw/hdl/fault_block.vhd:138-150 | a rising clear starts a pulse that lasts to the next 10 kHz pulse |
| FaultBlock.Block.SetpointChange | src/hw/hdl/fault_block.vhd:104-192 | the last two sampled set-points and whether they differ |
| FaultBlock.Block.Sync | src/hw/hdl/fault_block.vhd:121-134 | the 10 kHz pulse, three clocks late |
| FaultBlock.Block.Tick | src/hw/hdl/fault_block.vhd:94-407 | one rising edge of all processes |
| FaultBlock.BitRun | src/hw/hdl/fault_block.vhd:216-376 | over a run a bit depends on its own samples and nothing else |
| FaultBlock.SampleLaw | src/hw/hdl/fault_block.vhd:222-231 | counter and live bit as a function of how long the condition has held |
| FaultBlock.Debounce | src/hw/hdl/fault_block.vhd:216-376 | live bit i is set iff its condition held for the last limit + 1 samples that no clear, park or set-point change broke |
| FaultBlock.CountRun | src/hw/hdl/fault_block.vhd:203-376 | over every run the count of bits 6 to 10 depends on the bit's samples alone, whatever the resets |
| FaultBlock.CountThroughReset | src/hw/hdl/fault_block.vhd:203-211 | after any run that ends in a reset the counter is 0 iff reset clears it, the limit is 0 or the last sample did not count |
| FaultBlock.DebounceAfterReset | src/hw/hdl/fault_block.vhd:203-376 | after any run that ends in a reset, with resets of any number and length: the live bit is right in every further run iff that counter is 0 or a clear is pending |
| FaultBlock.ResetBreaksDebounce | src/hw/hdl/fault_block.vhd:203-376 | for every bit 6 to 10 with a limit above 0 a run through a reset after which limit samples set the live bit |
| FaultBlock.LatchLaw | src/hw/hdl/fault_block.vhd:393-401 | latch i is set iff live bit i was set at some clock since the last clear |
| FaultBlock.Interlock | src/hw/hdl/fault_block.vhd:88-101 | the supply trips iff an enabled bit other than bit 4 was live two clocks or more ago with no clear since |
| FaultBlock.TripHolds | src/hw/hdl/digio_logic.vhd:40-40 | from any state ON1 is low two clocks after such a bit is live and stays low until a clear |
| FaultBlock.ClearTakesEffect | src/hw/hdl/fault_block.vhd:138-150 | a requested clear waits for the next 10 kHz pulse and then clears all counters, live bits 0 to 10 and latches |
| FaultBlock.NoEarlyLatch | src/hw/hdl/fault_block.vhd:222-401 | after that no counted bit can latch within limit samples |
| FaultInterlock.ClearEnds | src/hw/hdl/fault_block.vhd:138-150 | the clear pulse is down after a 10 kHz pulse unless the clear input has risen at or since it |
| FaultInterlock.SamplesTaken | src/hw/hdl/fault_block.vhd:104-376 | which samples are taken and count, from trigger, clear, park and set-point inputs |
| FaultInterlock.On1FromInputs | src/hw/hdl/digio_logic.vhd:40-40 | from cleared counters, for every run: ON1 is on iff switched on and no enabled fault but 4 was present two clocks ago or earlier with no clear since, told from the inputs alone |
| FaultInterlock.ErrorTrigger | src/hw/hdl/fault_block.vhd:86-101 | the error trigger is fault 4 one clock late, if enabled |
| FaultInterlock.HeldFaultTrips | src/hw/hdl/fault_block.vhd:94-401 | an enabled fault held for limit + 1 samples switches ON1 off two clocks later |
| FaultInterlock.QuietStaysOn | src/hw/hdl/digio_logic.vhd:40-40 | without a fault ON1 stays as it is switched |
| FaultInterlock.ClearRestores | src/hw/hdl/fault_block.vhd:138-401 | from any state a clear brings the supply back at the next 10 kHz pulse, and without a fault it stays on |
| SmoothRamp.Ramp.Tick | src/hw/hdl/smooth_ramp.vhd:98-166 | one rising edge of ramp machine and pipeline |
| SmoothRamp.RampBegins | src/hw/hdl/smooth_ramp.vhd:116-128 | a ramp begins iff the target changed, from the current set-point |
| SmoothRamp.TickCountsDown | src/hw/hdl/smooth_ramp.vhd:130-161 | each 10 kHz tick takes one off the ticks left |
| SmoothRamp.RampLength | src/hw/hdl/smooth_ramp.vhd:115-161 | a ramp ends after exactly P div inc + 3 ticks |
| SmoothRamp.ZeroIncrementNeverEnds | src/hw/hdl/smooth_ramp.vhd:148-159 | with increment 0 it never ends |
| SmoothRamp.ChannelRegs.CalcWriteSmooth | src/sw/src/control.c:160-185 | sample count from the ramp rate; increment rounded to a float and written before the set-point that starts the ramp; nothing where C leaves the arithmetic undefined |
| SmoothRamp.DefinedIff | src/sw/src/control.c:163-178 | the count and the division by it are defined iff the rate is positive and the change lasts at least one sample and less than 2^32 |
| SmoothRamp.IncrementStored | src/sw/src/control.c:178-182 | for 26 or more samples the increment is stored exactly, and is positive iff there are at most P samples |
| SmoothRamp.SampleCount | src/sw/src/control.c:178-182 | for 1 to P samples the ramp takes at least N + 3 ticks iff N is not 1, 2, 4, 9 or 21, one less for those, and exactly N + 3 for the others up to sqrt(P) |
| SmoothRamp.RampOfSamples | src/sw/src/control.c:147-188 | the same from the register Calc_WriteSmooth wrote to the running machine, with the exact number of ticks for every N |
| SmoothRamp.CurveMonotone | src/hw/hdl/smooth_ramp.vhd:132-143 | the curve follows the cosine without turning back |
| SmoothRamp.NoOverflow | src/hw/hdl/smooth_ramp.vhd:136-146 | no stage of the pipeline overflows |
| SmoothRamp.PipelineTick | src/hw/hdl/smooth_ramp.vhd:131-146 | each stage holds what the one before it held a tick earlier |
| SmoothRamp.RampOutput | src/hw/hdl/smooth_ramp.vhd:130-161 | from the third tick on the output lies between start and target, and from the fourth it is the curve at the cosine three ticks back |
| SmoothRamp.RampMonotone | src/hw/hdl/smooth_ramp.vhd:130-161 | with a monotone cosine the output is monotone from the fourth tick on |
| SmoothRamp.CurveEnds | src/hw/hdl/smooth_ramp.vhd:132-146 | the curve is the start at cosine -1 and the target at cosine 1 |
| SmoothRamp.RampAngles | src/hw/hdl/smooth_ramp.vhd:115-161 | the angle put out after any number of ticks of a ramp, from -pi to 0, and the active flag |
| SmoothRamp.ResetRests | src/hw/hdl/smooth_ramp.vhd:101-114 | after a reset, with target 0, no ramp begins and the output is 0 |
| DacGainOffset.GainOffset.Tick | src/hw/hdl/dac_gainoffset.vhd:62-132 | one rising edge of the conversion machine |
| DacGainOffset.Conversion | src/hw/hdl/dac_gainoffset.vhd:62-132 | a conversion takes twelve clocks, puts out the saturated product of the sampled inputs and whether it was saturated |
| DacGainOffset.DonePulse | src/hw/hdl/dac_gainoffset.vhd:62-132 | done is up for exactly the one clock after the conversion |
| DacGainOffset.ResetPauses | src/hw/hdl/dac_gainoffset.vhd:65-68 | resets neither abort nor change a conversion, they pause it |
| DacGainOffset.WideExactAt | src/hw/hdl/dac_gainoffset.vhd:82-102 | 20-bit result = clamp(floor(oc * g / 2^20)) for 0 < g <= 2^21 |
| DacGainOffset.NarrowExactAt | src/hw/hdl/dac_gainoffset.vhd:103-110 | 18-bit result = clamp to [-131072, 131071] while the product stays within 39 bits |
| DacGainOffset.WideFlagExact | src/hw/hdl/dac_gainoffset.vhd:95-102 | for 0 < g <= 2^21 saturation is flagged iff the exact product is out of range |
| DacGainOffset.NarrowFlagExact | src/hw/hdl/dac_gainoffset.vhd:103-110 | for -2^20 < g <= 2^20 in 18-bit mode too |
| DacGainOffset.WideFailsAt | src/hw/hdl/dac_gainoffset.vhd:95-102 | for any other gain a set-point where 20-bit mode is wrong |
| DacGainOffset.NarrowFailsAt | src/hw/hdl/dac_gainoffset.vhd:103-110 | for any gain out of range a set-point where 18-bit mode is wrong |
| DacGainOffset.WideRightFor | src/hw/hdl/dac_gainoffset.vhd:76-102 | with 0 < g <= 2^21 a raw set-point comes out as the ideal clamp iff its difference to the offset fits 20 bits |
| DacGainOffset.NarrowRightFor | src/hw/hdl/dac_gainoffset.vhd:76-110 | the same in 18-bit mode for -2^20 < g <= 2^20, g = 0 always |
| DacGainOffset.FullScaleFlips | src/hw/hdl/dac_gainoffset.vhd:76-102 | set-point 524287 with offset -1 and gain code 2^20 gives -524288 with sat low where the ideal is 524287 |
| DacGainOffset.WideGainExact | src/hw/hdl/dac_gainoffset.vhd:76-114 | in 20-bit mode all raw set-points come out as the ideal clamp iff the offset is 0 and 0 < g <= 2^21 |
| DacGainOffset.NarrowGainExact | src/hw/hdl/dac_gainoffset.vhd:76-114 | in 18-bit mode iff g = 0, or the offset is 0 and -2^20 < g <= 2^20, or the offset is -1 and g at most two outside that range |
| DacSerialiser.Serialiser.LoadWord | src/hw/hdl/dac_ad5781.vhd:114-140 | a start loads the reset word or asks for the control word; control and set-point words are assembled |
| DacSerialiser.Serialiser.ShiftBits | src/hw/hdl/dac_ad5781.vhd:143-199 | chip select, the clock halves, the bit counter and the shift |
| DacSerialiser.Serialiser.Finish | src/hw/hdl/dac_ad5781.vhd:203-228 | the gap after a frame, the second frame or done |
| DacSerialiser.Serialiser.Reset | src/hw/hdl/dac_ad5781.vhd:101-109 | the state after reset |
| DacSerialiser.Serialiser.Tick | src/hw/hdl/dac_ad5781.vhd:82-236 | one rising edge of both processes |
| DacSerialiser.RestStep | src/hw/hdl/dac_ad5781.vhd:143-199 | what the DAC takes at a clock is the head of what was left of the frame |
| DacSerialiser.ProgressStep | src/hw/hdl/dac_ad5781.vhd:114-228 | frames, starts and the initial count go together in every state |
| DacSerialiser.StepInv | src/hw/hdl/dac_ad5781.vhd:98-236 | every edge keeps bits taken + bits left = frames loaded |
| DacSerialiser.FramesSent | src/hw/hdl/dac_ad5781.vhd:98-236 | the frames of a run that ends idle are those told from its inputs alone: for each start outside a busy time its control bits and the data one frame later |
| DacSerialiser.DacTakesFrames | src/hw/hdl/dac_ad5781.vhd:98-236 | from reset the bits at falling sclk with n_sync low are whole 24-bit frames MSB first, reset word then set-point for the first start, control word then set-point after, and when idle exactly the frames told from the inputs |
| DacSerialiser.LeftFalls | src/hw/hdl/dac_ad5781.vhd:98-236 | a busy machine comes one clock nearer to idle at every clock |
| DacSerialiser.StartTakes | src/hw/hdl/dac_ad5781.vhd:98-236 | a start is followed by exactly 544 busy clocks (543 the first time) in which further starts are ignored, and has then sent its control bits and the data present 267 clocks after it (266 the first time, after the reset word) |
| DacSerialiser.DoneSignals | src/hw/hdl/dac_ad5781.vhd:203-228 | done is down after a start until ten clocks before idle |
| DacSerialiser.DoneFalls | src/hw/hdl/dac_ad5781.vhd:114-116 | an idle clock takes done down |
| DacSerialiser.SetpointValue | src/hw/hdl/dac_ad5781.vhd:137-140 | the set-point frame as a number: 0x100000 plus the data |
| DacSerialiser.ControlValue | src/hw/hdl/dac_ad5781.vhd:131-134 | the control frame as a number: 0x200000 plus the weights of its five bits |
| DacSerialiser.ResetValue | src/hw/hdl/dac_ad5781.vhd:114-127 | the reset frames as numbers |
| DacReceiver.DacLoadsWords | src/hw/hdl/dac_ad5781.vhd:98-236 | a DAC that loads 24 bits when n_sync rises has, whenever the machine is idle, loaded exactly the words told from the inputs, each as a frame of its own |
| TimestampDecoder.EventReceiver.Timestamp | src/hw/hdl/event_rcv_ts.vhd:101-111 | the timestamp registers seconds and offset together |
| TimestampDecoder.EventReceiver.LatchSeconds | src/hw/hdl/event_rcv_ts.vhd:65-85 | a latch event moves the seconds and restarts the offset |
| TimestampDecoder.EventReceiver.Receive | src/hw/hdl/event_rcv_ts.vhd:37-62 | a bit event writes at the position and moves it; the delayed clear wins |
| TimestampDecoder.EventReceiver.Tick | src/hw/hdl/event_rcv_ts.vhd:37-111 | one rising edge of all processes |
| TimestampDecoder.FirstTwo | src/hw/hdl/event_rcv_ts.vhd:50-99 | what arrives in the first two clocks after a latch moves the position and is lost |
| TimestampDecoder.TmpAfter | src/hw/hdl/event_rcv_ts.vhd:37-62 | what the seconds hold after any stretch of up to 32 bits with other events between |
| TimestampDecoder.LatchedSeconds | src/hw/hdl/event_rcv_ts.vhd:37-99 | the latched seconds are the 32 bits carried iff those in the first two clocks are 0 |
| TimestampDecoder.EncodeCarries | src/hw/hdl/event_rcv_ts.vhd:2-6 | the encoder's stream carries exactly its bits |
| TimestampDecoder.DecodesEncoding | src/hw/hdl/event_rcv_ts.vhd:38-111 | for every 32-bit n, encoded with other events anywhere but no bit in the first two clocks, the latched seconds are n |
| TimestampDecoder.StampFollows | src/hw/hdl/event_rcv_ts.vhd:101-111 | in every run TimeStamp is seconds and offset of the clock before |
| TimestampDecoder.StampFromEvents | src/hw/hdl/event_rcv_ts.vhd:37-111 | from any state: after a latch, an encoded second with its latch and k further clocks TimeStamp is that second and k, one clock late |
| TimestampDecoder.ResetStartsAtZero | src/hw/hdl/event_rcv_ts.vhd:50-111 | after a reset the timestamp and the next latched second are 0 |
| TimestampDecoder.OffsetCounts | src/hw/hdl/event_rcv_ts.vhd:75-85 | between latches the offset counts clocks |
| TimestampDecoder.TimeNeverGoesBack | src/hw/hdl/event_rcv_ts.vhd:38-111 | for rising encoded seconds without an offset wrap the timestamp never goes backwards |

## Left out

- TFTP: packet parsing below the fields used, buffer-chain handling, error texts, `tftp_cleanup`, and the wrap of the `int` timer.
- TFTP: success at the sender of a write is not claimed, because the last ACK is not repeated after the close.
- TFTP: nothing bounds the number of timers, because a rejected request leaves one behind; it is counted in `pending`.
- PscMessage.PscRecvAll: the C code fills a caller's buffer in place; the model returns the bytes.
- PSC: `psc_sendmsgsingle` repeats the modelled pattern with four more bytes; error reporting is left out.
- PscListener.PscKey.ClientAlloc: the 32-bit mask is a sequence of four Booleans, so shifts and masks are not modelled.
- PscListener.PscKey.Connect: taking the slot and storing its socket are one step; between them the C code leaves socket number 0 in a used slot.
- PSC: reuse of a descriptor number after the double close in `handle_client`; threads, timeouts and the mutex itself (each event holds it once).
- AdcWriter.Adc2Ddr.Tick: outputs that nothing modelled reads (awvalid, wlast, bready, the constant burst fields, the debug counter `tenkhzcnt`); a reset in the middle of a run.
- AdcWriter.RecordsKept: a trigger pulse that falls wholly inside a burst is not recorded, as in the source; words are sampled at their own clock.
- SnapshotReader.CopyDataChan: each number is an integer with the name of its factor, so numbers with different factors count as different even when both are 0; the rounding of floats, and with it the loss of low counter bits above 2^24, is not modelled, and the digital-loop register is taken not to change within one message.
- SnapshotReader.ReadDMABuf: line 300 of snapshots.c invalidates only the first 16000000 of the ring's 32000000 bytes; the model takes the cache to be coherent above slot 100000 as well.
- SnapshotEndToEnd.SnapshotIsWindow: assumes a coherent cache, as ReadDMABuf does; the window is read in one step; `WindowShows` holds in every state, so a slower reader gets the same words while the window lasts.
- TriggerPoller.TriggerInfo.Poll: one of the twenty identical triggers; byte swapping and the 10 Hz statistics message.
- FaultBlock.Debounce: the analog thresholds are Booleans per sample (`abs` of the most negative code stays negative), and limits do not change during a run.
- FaultBlock.Block.Tick: the heartbeat detector and `error_sub`, which drive nothing.
- SmoothRamp.Ramp.Tick: the CORDIC itself, and the debug registers `cnt` and `diff_setpt`.
- SmoothRamp.ChannelRegs.CalcWriteSmooth: the ramp rate is an input and the sample count is computed over reals, so the rounding of its floats is left out.
- SmoothRamp.RampOutput: exact arrival at the target is not claimed, because the last cosine taken is a few phase steps short.
- DacSerialiser.DacTakesFrames: no reset during a run; the branch for x"400000" is modelled but no run reaches it.
- TimestampDecoder.TimeNeverGoesBack: no reset during a run.
- Sockets, lwIP, FreeRTOS, drivers, the console, settings switches, the PID core and the vendor cores.
