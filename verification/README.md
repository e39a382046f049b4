# Five Linux drivers, modelled and proved in Dafny

This project models five drivers of the repository and proves what they are for. Every file is
a Dafny module of the same name; `dafny verify dfyconfig.toml` checks all of them.

## The snull network drivers

Two drivers share one model: the LDD3 snull (`ldd3_snull_orig/snull.c`), with its regular and its
NAPI interrupt handler, and the newer snull, regular mode only, with its ping loopback.

* `Checksum` and `Frames` hold the octets: the Internet checksum of RFC 1071 (section 1) with
  end-around carry, the third-octet toggle of the LDD3 driver, the address swap and identifier edits
  of the newer one, zero padding, and reception. `FrameEdits` makes the same edits in place on arrays
  and is proved against `Frames`.
* `SnullModel` is the state machine on values: two devices, each with a pool and a receive list
  (both stacks), a status word, flags and statistics, and the driver entries as run-to-completion
  steps. A run is a list of calls with their allocation outcomes. The destination rule is a parameter,
  so both drivers run on the same pools and lists.
* `SnullDevice` and `SnullDriver` are the program: packets linked through `next`, device fields
  updated in place, frames rewritten where they lie, the poll loop as a loop. Each method's
  postcondition equates the new state with the function of `SnullModel` of the same role, so the
  theorems about runs hold of the program. Ghost fields give each packet its list and its height there.
* `SnullLedger` (conservation of buffers and frames), `SnullFlow` (flow control, no stranded
  packet), `SnullPoll` (the poll loop), `SnullAccounts` (both ends' statistics), `SnullService` (NAPI
  against regular, order of a burst, ping through the driver), `SnullLockup` (the simulated lost
  interrupts) and `SnullSkbs` (when each skb is freed exactly once) hold the theorems, each over all
  runs. `SnullWire` says, with offsets and values written out, which octets reach whom.

The model takes the sources' own assumptions: one driver entry runs to completion before the next;
the kernel transmits only while the queue runs; a frame handed to `snull_hw_tx` is padded to 60
octets, fits the 1500 octets of `data[]`, and has a header length field of at least 5 words that stays
inside the frame (`ValidFrame`).

Four claims hold only in part. Each is given with an input on which it fails and the exact condition
under which it holds:

* A running queue has a buffer to transmit from: open and the watchdog restart a queue without looking
  at its pool (`RestartHappens`). A run is safe at every boundary if and only if its restarts met
  pools that were not empty (`SafeIffRestartsSupplied`). `LegalRun` is about the runs where they did;
  conservation and the tending of receive lists hold without that (`CallRun`).
* At the end of a run each skb has been freed once, or is outstanding. It fails in two ways: with a lost
  interrupt, the other interface's next frame may serve the pending transmit bit, and the watchdog then
  serves it again (`FreedTwice`); and open may restart a queue with an interrupt pending, and the next
  skb displaces the one that waits for it (`SkbForgotten`). For skbs that are all different it holds, in
  every run of either driver in either mode, if and only if neither happened to a device that remembers
  an skb (`SkbsFreedOnce`). If skbs may recur it is so in regular mode without opens
  (`RegularFreedOnce`), and what the two numbers are out by is known in any case (`RunTally`).
* A frame that went out and came back in has a correct IP header checksum: on reception a request is
  edited behind octet 20, which assumes a plain header (`OptionsSpoilReply`). The header is correct if
  and only if the frame is not a request, or has no options, or has at least 28 octets of header and an
  identifier octet of at least 8 (`PingHeaderValid`).
* It has its identifier unchanged: that is so if and only if it is not an echo reply
  (`LoopKeepsIdentifier`), which comes back with one octet 8 lower (`LoopChangesIdentifier`), because
  only requests are raised again on reception.

## The sleeping reader

`Sleepy` interleaves any number of readers inside `wait_event_interruptible` (test, prepare, test
again, look for a signal, sleep, leave), writers between setting the flag and waking the queue, and
proc writers, one atomic step at a time. The class `Driver` makes the steps on its fields.

## The serial driver

`Serial` models a 16450 register file in which DLAB remaps two ports, and the open and ioctl
sequences over it. `Mailbox` models the one-byte mailbox between the interrupt handler and a reader
that waits, copies and clears. The source announces even parity on open, but 0x0b selects odd parity;
the model follows the code. "ODD parity gives odd parity" is false once an EVEN command has been given,
since the even bit is never cleared (`OddAfterEven`); `OddIsOddUnlessEvenCame` gives the exact condition.

Two claims about reception hold only in part. A read takes no notice of a failed copy and clears the flag
all the same, so a byte can be lost that arrived with the flag down (`CopyLosesByte`); `NothingLost` gives
the exact condition. And the interrupt handler reads the data port whatever DLAB is, so that a byte that
arrives in the middle of a baud change is stored as the divisor (`LatchReadForByte`). `SerialLine`
interleaves the port writes of open and ioctl calls with the handler and the reader: what is read is what
was on the line if and only if every byte arrived with the flag down and the latch closed, or holding that
byte, and every copy worked (`ReadsAreLine`). Open keeps the latch safe; a baud change does if it is asked
for with the receive interrupt disabled (`GuardedIsClear`), and not otherwise (`UnguardedIsNot`).

## The calculator

`Calculator` interleaves any number of clients statement by statement through open, the shared
`file_operations` table and the semaphore. `Int32` holds C's 32-bit integers, which wrap round. The source's second
statement of open reads the minor back from the global `MyTestdev` before the semaphore is taken, so
two opens can collide and a client can get another device's functions (`CollisionHappens`). All sessions
of a run are on their clients' own devices if and only if, for each client that gets to switch the table,
the last open call before it read the minor named the device it was opening (`SessionsOwnIff`).

## The video RAM

`Vram` holds the byte loops of read and write with a fault at any octet, and the laws of chunked
access.

## Model

| member | source | states |
|---|---|---|
| Checksum.CheckMakesValid | ndd/04_NIC_snull_drv/ldd3_snull_orig/snull.c:464-465 | a value stored in a zeroed check field makes the header verify exactly when it is congruent to the computed checksum |
| Checksum.FoldSame | ndd/04_NIC_snull_drv/ldd3_snull_orig/snull.c:465 | two word sums fold to the same 16 bits exactly when they agree modulo 0xFFFF and on being zero |
| Checksum.VerifiesMeaning | ndd/04_NIC_snull_drv/ldd3_snull_orig/snull.c:464-465 | a header verifies if and only if, read as one big-endian number, it is a multiple of 65535 other than 0 |
| Checksum.CsumMeaning | ndd/04_NIC_snull_drv/ldd3_snull_orig/snull.c:465 | the computed checksum is the least number that completes the header to a multiple of 65535, and all ones for a header of zeros |
| Frames.SetCheckVerifies | ndd/04_NIC_snull_drv/ldd3_snull_orig/snull.c:457-465 | for every header length and contents the rebuilt header sums to 0xFFFF, and the field holds what the driver would compute again |
| Frames.PingRewriteVerifies | ndd/04_NIC_snull_drv/snull.c:542-574 | every frame that leaves the newer snull_hw_tx, ping or not, has a header that verifies |
| Frames.ToggleTwice | ndd/04_NIC_snull_drv/ldd3_snull_orig/snull.c:461-465 | the toggle rewrite applied twice is the identity exactly on frames that carry the computed checksum |
| Frames.ToggleKeepsCheck | ndd/04_NIC_snull_drv/ldd3_snull_orig/snull.c:461-465 | one pass leaves the checksum alone exactly when the low bits of the two third octets differ |
| Frames.SwapInvariance | ndd/04_NIC_snull_drv/snull.c:557-574 | exchanging the addresses changes neither the word sum nor the checksum |
| Frames.PingOctets | ndd/04_NIC_snull_drv/snull.c:306-329 | every octet outside the check field of a frame that went out and came back in, for requests, replies and other frames and any header length |
| Frames.LoopedCheck | ndd/04_NIC_snull_drv/snull.c:557-574 | the two octets of the check field of what came back in: the checksum computed after the identifier edit, whatever the addresses' exchange |
| Frames.PingEndToEnd | ndd/04_NIC_snull_drv/snull.c:542-574 | a request with a plain header comes back as its reply: addresses exchanged, type 0, header checksum correct, everything else unchanged |
| Frames.PingHeaderValid | ndd/04_NIC_snull_drv/snull.c:321-325 | the header of what came back in verifies if and only if the frame is not a request, or has no options, or has at least 28 octets of header and an identifier octet of at least 8 |
| Frames.OptionsSpoilReply | ndd/04_NIC_snull_drv/snull.c:321-325 | a request with one option word whose looped header does not verify |
| Frames.LoopKeepsIdentifier | ndd/04_NIC_snull_drv/snull.c:321-330 | the identifier octet comes back as it was if and only if the frame is not an echo reply |
| Frames.LoopChangesIdentifier | ndd/04_NIC_snull_drv/snull.c:321-330 | an echo reply whose identifier octet changes in the loop |
| FrameEdits.RebuildCheck | ndd/04_NIC_snull_drv/ldd3_snull_orig/snull.c:464-465 | the in-place checksum rebuild, and that nothing past the frame changes |
| FrameEdits.ToggleOctets | ndd/04_NIC_snull_drv/ldd3_snull_orig/snull.c:457-465 | the in-place toggle is the rewrite the algebra above is about |
| FrameEdits.ExchangeAddresses | ndd/04_NIC_snull_drv/snull.c:558-566 | source and destination address change places through a temporary, all other octets stay |
| FrameEdits.EditPing | ndd/04_NIC_snull_drv/snull.c:551-574 | the in-place edits of the newer snull_hw_tx |
| FrameEdits.EchoToReply | ndd/04_NIC_snull_drv/snull.c:306-330 | an echo request in the skb becomes an echo reply in place, other packets stay |
| FrameEdits.PadShort | ndd/04_NIC_snull_drv/ldd3_snull_orig/snull.c:515-522 | short frames are copied and zero-padded to 60 octets, longer ones are handed on as they are, without a copy |
| SnullDevice.Packet.CopyIn | ndd/04_NIC_snull_drv/ldd3_snull_orig/snull.c:484-485 | the packet's first datalen octets are the frame |
| SnullDevice.Packet.BuildSkb | ndd/04_NIC_snull_drv/snull.c:291-330 | what is handed up is the payload of the model: PollDelivers, Ldd3Delivers and PingDelivers say which octets those are |
| SnullDevice.Device.GetTxBuffer | ndd/04_NIC_snull_drv/ldd3_snull_orig/snull.c:132-147 | the top packet leaves the pool, the queue stops exactly if that empties it, and all four lists stay in order |
| SnullDevice.Device.ReleaseBuffer | ndd/04_NIC_snull_drv/ldd3_snull_orig/snull.c:150-161 | the packet goes on top of the pool, and a stopped queue wakes exactly if the pool was empty |
| SnullDevice.Device.SendHome | ndd/04_NIC_snull_drv/ldd3_snull_orig/snull.c:150-161 | a packet is released to the device in its dev field, whichever interface handled it |
| SnullDevice.Device.EnqueueBuf | ndd/04_NIC_snull_drv/ldd3_snull_orig/snull.c:163-172 | the packet becomes the head of the receive list and the list still describes its packets |
| SnullDevice.Device.DequeueBuf | ndd/04_NIC_snull_drv/ldd3_snull_orig/snull.c:174-186 | the head of the list with the frame it holds, or null exactly for an empty list |
| SnullDevice.Device.NoPacketTwice | ndd/04_NIC_snull_drv/ldd3_snull_orig/snull.c:98-186 | the four linked lists have no packet twice and none in common |
| SnullDevice.Device.AddPacket | ndd/04_NIC_snull_drv/ldd3_snull_orig/snull.c:105-114 | a new packet of this device on top of its pool, the lists still in order |
| SnullDevice.Device.HandUp | ndd/04_NIC_snull_drv/ldd3_snull_orig/snull.c:253-281 | with an skb the packet is delivered and counted in packets and bytes, without one it is counted as dropped |
| SnullDevice.ServedIsInterrupt | ndd/04_NIC_snull_drv/ldd3_snull_orig/snull.c:355-374 | serving receive before transmit and releasing the buffer last, as the handler does, comes to the interrupt step of the model |
| SnullDevice.Device.RegularInterrupt | ndd/04_NIC_snull_drv/ldd3_snull_orig/snull.c:333-376 | the regular handler is the interrupt step of the model, with both devices' lists kept |
| SnullDevice.Device.NapiInterrupt | ndd/04_NIC_snull_drv/ldd3_snull_orig/snull.c:381-418 | the NAPI handler is the interrupt step of the model |
| SnullDevice.Device.Poll | ndd/04_NIC_snull_drv/ldd3_snull_orig/snull.c:287-327 | the loop computes the poll step for every quota and failure pattern, returns 0 exactly when the list is empty, and lowers budget and quota by the packets delivered |
| SnullDevice.Device.Post | ndd/04_NIC_snull_drv/ldd3_snull_orig/snull.c:483-486 | a buffer of the sender, filled with the frame, is the new head of the destination's list |
| SnullDevice.Device.SignalRx | ndd/04_NIC_snull_drv/ldd3_snull_orig/snull.c:487-490 | the receive interrupt is raised and served exactly if the destination has it enabled |
| SnullDevice.Device.SignalTx | ndd/04_NIC_snull_drv/ldd3_snull_orig/snull.c:492-503 | the transmit interrupt is served, or lost with the queue stopped, as the lockup count says |
| SnullDevice.Device.EditFrame | ndd/04_NIC_snull_drv/snull.c:542-593 | the header edits of either driver in place, and whether the frame loops back to its sender; what the edits come to, octet by octet, Ldd3Delivers and PingDelivers say |
| SnullDevice.Device.HwTx | ndd/04_NIC_snull_drv/ldd3_snull_orig/snull.c:425-504 | snull_hw_tx is the send step of the model; a frame under 34 octets changes nothing |
| SnullDevice.Device.Tx | ndd/04_NIC_snull_drv/ldd3_snull_orig/snull.c:509-532 | snull_tx is the transmission step on the padded frame |
| SnullDevice.Device.TxTimeout | ndd/04_NIC_snull_drv/ldd3_snull_orig/snull.c:537-549 | the watchdog simulates a transmit interrupt, counts an error and wakes the queue |
| SnullDriver.Snull.SetupPool | ndd/04_NIC_snull_drv/ldd3_snull_orig/snull.c:98-115 | the pool has as many packets as asked for if no allocation among the first so many fails, and otherwise as many as the index of the first failure |
| SnullDriver.Snull.constructor | ndd/04_NIC_snull_drv/ldd3_snull_orig/snull.c:98-115 | two freshly opened devices, each with a pool of that size |
| SnullDriver.Snull.Handle | ndd/04_NIC_snull_drv/ldd3_snull_orig/snull.c:202-224 | every call the kernel makes (tx with a buffer to be had, poll, timeout, open, stop) is exactly one step of the model |
| SnullDriver.Snull.Serve | ndd/04_NIC_snull_drv/ldd3_snull_orig/snull.c:132-147 | a driver that keeps the control invariant gets through every call the kernel makes, a transmission finding its buffer, and keeps it if and only if the call did not restart a queue over an empty pool |
| SnullLedger.StepBooks | ndd/04_NIC_snull_drv/ldd3_snull_orig/snull.c:132-186 | no call, restarts over empty pools included, creates, loses or duplicates a buffer or a frame |
| SnullLedger.BuffersConserved | ndd/04_NIC_snull_drv/ldd3_snull_orig/snull.c:98-186 | after any run, with restarts at any time, each buffer of each device is in as many of its places as before |
| SnullLedger.EachBufferOnce | ndd/04_NIC_snull_drv/ldd3_snull_orig/snull.c:98-186 | from setup on and in any run, each buffer is in exactly one place, once: its own device's pool or one of the two receive lists |
| SnullLedger.BufferCount | ndd/04_NIC_snull_drv/ldd3_snull_orig/snull.c:150-161 | in any run pool size plus buffers in flight of a device never changes |
| SnullLedger.FramesConserved | ndd/04_NIC_snull_drv/ldd3_snull_orig/snull.c:253-327 | in any run what was sent towards a device is delivered, dropped or listed there, each frame once, and the counters agree in packets and bytes |
| SnullFlow.StepKeeps | ndd/04_NIC_snull_drv/ldd3_snull_orig/snull.c:287-549 | every call keeps lists attended and receive counters true, and running queues supplied unless it restarts one over an empty pool |
| SnullFlow.RestartNeedsBuffer | ndd/04_NIC_snull_drv/ldd3_snull_orig/snull.c:544-547 | restarting the queue by timeout or open is safe if and only if the pool is not empty |
| SnullFlow.QueueControl | ndd/04_NIC_snull_drv/ldd3_snull_orig/snull.c:132-224 | who stops and wakes a queue: open and the watchdog start it, stop stops it, a transmission leaves the sender's stopped exactly if its pool is empty or its interrupt was lost, a poll wakes it exactly if it refills an empty pool, nothing else touches it |
| SnullFlow.RegularSend | ndd/04_NIC_snull_drv/ldd3_snull_orig/snull.c:481-490 | in regular mode a transmission is a delivery: the buffer is home before snull_hw_tx goes on |
| SnullFlow.NapiSend | ndd/04_NIC_snull_drv/ldd3_snull_orig/snull.c:404-407 | in NAPI mode a transmission leaves the frame listed, interrupts off and a poll scheduled |
| SnullFlow.SafeIffRestartsSupplied | ndd/04_NIC_snull_drv/ldd3_snull_orig/snull.c:537-549 | with opens and timeouts at any time, every boundary of a run has a buffer for each running queue if and only if every restart met a pool that was not empty |
| SnullFlow.RestartHappens | ndd/04_NIC_snull_drv/ldd3_snull_orig/snull.c:544-547 | a run in which the watchdog restarts a queue over an empty pool |
| SnullFlow.TransmitFindsBuffer | ndd/04_NIC_snull_drv/ldd3_snull_orig/snull.c:139-140 | after any run whose restarts met pools that were not empty, whatever the kernel may transmit finds a buffer |
| SnullFlow.FlowControl | ndd/04_NIC_snull_drv/ldd3_snull_orig/snull.c:141-144 | without lockups and timeouts a queue is stopped exactly when its pool is empty, over all runs, if and only if setup filled both pools at all |
| SnullFlow.NoStrandedPacket | ndd/04_NIC_snull_drv/ldd3_snull_orig/snull.c:320-326 | in any NAPI run from open, with restarts at any time, receive interrupts are off and a poll is scheduled exactly while packets wait |
| SnullPoll.PollLoopSpec | ndd/04_NIC_snull_drv/ldd3_snull_orig/snull.c:294-316 | the loop terminates, leaves the oldest part of the list, delivers or drops what it takes newest first, sends every buffer home, and stops at the quota or the end |
| SnullPoll.PollCounts | ndd/04_NIC_snull_drv/ldd3_snull_orig/snull.c:312-319 | packets plus drops rise by exactly what left the list, deliveries stay within the quota, and stopping short of it means the list is empty |
| SnullPoll.PollProgress | ndd/04_NIC_snull_drv/ldd3_snull_orig/snull.c:294 | a poll with any quota takes something off a list that has something on it |
| SnullPoll.PollsDrain | ndd/04_NIC_snull_drv/ldd3_snull_orig/snull.c:287-327 | in any run without transmissions, as many polls of a device as its list is long, with any quota at all, leave the list empty, whatever the failures and the calls in between |
| SnullWire.FrameOfData | ndd/04_NIC_snull_drv/ldd3_snull_orig/snull.c:515-522 | the frame for an skb has at least 60 octets: the data, then zeros |
| SnullWire.Ldd3Delivers | ndd/04_NIC_snull_drv/ldd3_snull_orig/snull.c:425-504 | LDD3 driver, regular mode, from skb to stack: the twin gets the frame from octet 14 on with the low bits of octets 28 and 32 flipped and a header that verifies, everything else as it was, or loses one frame; the sender hears nothing |
| SnullWire.Ldd3Queues | ndd/04_NIC_snull_drv/ldd3_snull_orig/snull.c:425-504 | LDD3 driver, NAPI mode: a buffer of the sender's with those octets is the new head of the twin's list, and nothing is delivered |
| SnullWire.PollDelivers | ndd/04_NIC_snull_drv/ldd3_snull_orig/snull.c:287-327 | a poll hands up the frames above what it leaves on the list, newest first, each from octet 14 on, for every pattern of failures |
| SnullWire.PingDelivers | ndd/04_NIC_snull_drv/snull.c:540-604 | the newer driver, from skb to stack: echo requests and replies come back to their sender with every octet as described, everything else goes to the twin unchanged with a header that verifies |
| SnullAccounts.RunTx | ndd/04_NIC_snull_drv/ldd3_snull_orig/snull.c:365-370 | without lockups every skb is freed exactly once, in order, and tx counters are the number and padded length of the skbs |
| SnullAccounts.CrossDeviceAccounts | ndd/04_NIC_snull_drv/ldd3_snull_orig/snull.c:481-503 | what one side counts as transmitted its twin counts as received or dropped, or still lists, in packets and in bytes, in both modes |
| SnullAccounts.TotalAccounts | ndd/04_NIC_snull_drv/snull.c:590-604 | the same for both drivers over the two devices together, loopback included |
| SnullService.RegularDelivers | ndd/04_NIC_snull_drv/ldd3_snull_orig/snull.c:333-376 | regular mode accepts any transmissions and delivers them in order |
| SnullService.NapiRefinesRegular | ndd/04_NIC_snull_drv/ldd3_snull_orig/snull.c:287-418 | a drained NAPI run and the regular replay of its transmissions deliver the same multiset, with equal counters and the same skbs freed |
| SnullService.BurstReversed | ndd/04_NIC_snull_drv/ldd3_snull_orig/snull.c:169-170 | of a burst by either interface, what goes to one of them comes out of its polls exactly reversed |
| SnullService.EchoComesBack | ndd/04_NIC_snull_drv/snull.c:590-604 | a ping handed to an idle device is delivered to that device as its reply, and not to its twin |
| SnullLockup.SendOutcome | ndd/04_NIC_snull_drv/ldd3_snull_orig/snull.c:496-503 | a send stops the queue exactly when its interrupt is the one that gets lost, and the timeout completes it |
| SnullLockup.LockupArithmetic | ndd/04_NIC_snull_drv/ldd3_snull_orig/snull.c:492-549 | with one device sending and the watchdog after each lost interrupt, after n sends with lockup k: n packets, n / k errors, the exact bytes, every skb freed once in order, queue running |
| SnullSkbs.CallTally | ndd/04_NIC_snull_drv/ldd3_snull_orig/snull.c:365-370 | how many skbs and how many packets one call is out by, and that it frees each skb once and in order if and only if no idle watchdog and no early transmission met a remembered skb; in the newer driver where the transmission is not early |
| SnullSkbs.RunTally | ndd/04_NIC_snull_drv/ldd3_snull_orig/snull.c:492-549 | any run of the LDD3 driver, and any run of the newer one without early transmissions: skbs freed or outstanding and packets counted or pending are those handed in, plus one for each idle watchdog, minus one for each early transmission |
| SnullSkbs.SkbsFreedOnce | ndd/04_NIC_snull_drv/ldd3_snull_orig/snull.c:492-549 | any run of either driver in either mode, skbs all different: at its end each skb has been freed exactly once and in order, but for one outstanding, if and only if no idle watchdog and no early transmission met a remembered skb |
| SnullSkbs.RegularFreedOnce | ndd/04_NIC_snull_drv/ldd3_snull_orig/snull.c:492-549 | regular mode without opens, skbs that may recur: the same at the end of the run if and only if no idle watchdog met a remembered skb, and the packet counter right if and only if no watchdog was idle |
| SnullSkbs.FreedTwice | ndd/04_NIC_snull_drv/ldd3_snull_orig/snull.c:492-549 | a run with traffic both ways in which an skb is freed twice |
| SnullSkbs.SkbForgotten | ndd/04_NIC_snull_drv/ldd3_snull_orig/snull.c:202-224 | a run in which open restarts the queue too early and an skb is never freed |
| Sleepy.StepKeeps | cdd/blocking_io/slepy_proc/slpy-proc-ctrl.c:82-123 | every atomic step of any task keeps the no-lost-wakeup invariant, and the wait queue free of tasks that have left the wait |
| Sleepy.NoWakeupIsLost | cdd/blocking_io/slepy_proc/slpy-proc-ctrl.c:82-123 | in every reachable state a reader that is about to sleep or asleep, not woken, with the flag set, has a writer about to wake it, and no task is on the queue that has left the wait |
| Sleepy.WakeReachesAll | cdd/blocking_io/slepy_proc/slpy-proc-ctrl.c:123-124 | a wake-up makes every such reader runnable, takes exactly the interruptible tasks off the queue, and does nothing else |
| Sleepy.FlagIffLastIsWrite | cdd/blocking_io/slepy_proc/slpy-proc-ctrl.c:108-184 | at the end of any run the flag is set if and only if, of the writes, the resets by readers and the accepted "2" commands, the last is a write |
| Sleepy.ModeDecides | cdd/blocking_io/slepy_proc/slpy-proc-ctrl.c:97-113 | a reader that was granted its read returns 0, and resets the flag on its way out if and only if the last of the commands "0" and "1" was a "1" |
| Sleepy.ReadReturns | cdd/blocking_io/slepy_proc/slpy-proc-ctrl.c:82-113 | a read returns 0 only having seen the flag set, -ERESTARTSYS only with a signal, and nothing else |
| Sleepy.ReaderGetsOut | cdd/blocking_io/slepy_proc/slpy-proc-ctrl.c:82-113 | a woken reader nobody signals can always step once the flag is set, and returns 0 within a bounded number of its own steps if nobody else resets it first |
| Sleepy.WriteReleasesReaders | cdd/blocking_io/slepy_proc/slpy-proc-ctrl.c:116-127 | after a write's wake-up, if of the writes and resets so far the last was a write, every reader without a signal returns 0 within its rank unless somebody else resets the flag first |
| Sleepy.SignalReaches | cdd/blocking_io/slepy_proc/slpy-proc-ctrl.c:82-85 | a signal makes any waiting reader runnable |
| Sleepy.SignalledGetsOut | cdd/blocking_io/slepy_proc/slpy-proc-ctrl.c:82-85 | a signalled reader can always step, however the flag moves, and returns within a bounded number of its own steps: 0 if it comes to see the flag set, and else -ERESTARTSYS (-512) |
| Sleepy.ProcCommands | cdd/blocking_io/slepy_proc/slpy-proc-ctrl.c:167-184 | what "0", "1" and "2" make the next reader do, that anything else changes nothing, and the return value for every input |
| Sleepy.Driver.AdvanceRead | cdd/blocking_io/slepy_proc/slpy-proc-ctrl.c:75-114 | the steps of sleepy_read on the globals and the wait queue |
| Sleepy.Driver.WakeUp | cdd/blocking_io/slepy_proc/slpy-proc-ctrl.c:123-124 | the walk along the queue wakes and removes exactly the interruptible tasks |
| Sleepy.Driver.WriteWakeOne | cdd/blocking_io/slepy_proc/slpy-proc-ctrl.c:145-188 | the proc write with its three errors, which change nothing |
| Serial.Driver.Open | cdd/comm_hardware/ioports/Serial_Port/SerialDriver/serial.c:179-214 | from any registers: 9600 baud, 8 bits, odd parity, interrupts on, DLAB clear, nothing transmitted |
| Serial.Driver.SetBaud | cdd/comm_hardware/ioports/Serial_Port/SerialDriver/serial.c:282-298 | a baud change writes the divisor and nothing else: LCR comes back as it was, whatever it was |
| Serial.Driver.Control | cdd/comm_hardware/ioports/Serial_Port/SerialDriver/serial.c:277-339 | every command's effect from any registers, and the return value 1 |
| Serial.LineControlBits | cdd/comm_hardware/ioports/Serial_Port/SerialDriver/serial.c:300-328 | which bits of the line control register each command sets or clears, from any contents, all other bits staying |
| Serial.Driver.OpenAndConfigure | cdd/comm_hardware/ioports/Serial_Port/SerialDriver/serial.c:164-339 | open and any command list leave the registers showing the settings asked for, with nothing transmitted |
| Serial.SequenceShows | cdd/comm_hardware/ioports/Serial_Port/SerialDriver/serial.c:277-339 | between any commands DLAB is clear and the registers show the settings so far |
| Serial.SettingsByLastCommand | cdd/comm_hardware/ioports/Serial_Port/SerialDriver/serial.c:280-336 | each setting is the last command's about it; the even bit is set exactly if an EVEN command occurred since open |
| Serial.RegistersByLastCommand | cdd/comm_hardware/ioports/Serial_Port/SerialDriver/serial.c:164-339 | the contents of the line control, divisor and interrupt registers after open and any commands, as numbers |
| Serial.OddIsOddUnlessEvenCame | cdd/comm_hardware/ioports/Serial_Port/SerialDriver/serial.c:306-310 | the ODD command gives odd parity if and only if no EVEN command came before it |
| Serial.OddAfterEven | cdd/comm_hardware/ioports/Serial_Port/SerialDriver/serial.c:300-310 | EVEN and then ODD leave the line on even parity |
| Serial.RateShown | cdd/comm_hardware/ioports/Serial_Port/SerialDriver/serial.c:40-44 | the divisors 12 and 6 give 9600 and 19200 baud from the 1.8432 MHz clock |
| Serial.DifferentFieldsCommute | cdd/comm_hardware/ioports/Serial_Port/SerialDriver/serial.c:280-336 | commands about different things commute, from any registers with DLAB clear |
| Mailbox.CodesServed | cdd/comm_hardware/ioports/Serial_Port/SerialDriver/serial.c:340-377 | an interrupt is pending when bit 0 is clear; the bit fields select identification codes 4 (received data) and 2 (transmitter empty) |
| Mailbox.StepSound | cdd/comm_hardware/ioports/Serial_Port/SerialDriver/serial.c:265-273 | every step of reader or handler keeps the history law |
| Mailbox.ReadsAreArrivalsInOrder | cdd/comm_hardware/ioports/Serial_Port/SerialDriver/serial.c:265-273 | reads return an in-order subsequence of the bytes the handler stored, each at most once, and every one is copied, waiting or overrun |
| Mailbox.NothingLost | cdd/comm_hardware/ioports/Serial_Port/SerialDriver/serial.c:351-385 | at the end of any run what has been handed on is exactly what the handler stored, byte by byte, if and only if each byte arrived with the flag down and each copy to the user succeeded |
| Mailbox.CopyLosesByte | cdd/comm_hardware/ioports/Serial_Port/SerialDriver/serial.c:265-273 | a byte that arrives with the flag down and is lost to a failed copy |
| Mailbox.TransmitFlag | cdd/comm_hardware/ioports/Serial_Port/SerialDriver/serial.c:361-369 | the transmit flag is up until the first interrupt with identification code 2, then down for good |
| SerialLine.ChangeDone | cdd/comm_hardware/ioports/Serial_Port/SerialDriver/serial.c:277-339 | the port writes of a command, carried out in full, are the ioctl step |
| SerialLine.OpenDone | cdd/comm_hardware/ioports/Serial_Port/SerialDriver/serial.c:164-214 | the port writes of open leave the registers showing the default settings: 0x0b, divisor 12, interrupts 3, from any contents |
| SerialLine.QuietRequest | cdd/comm_hardware/ioports/Serial_Port/SerialDriver/serial.c:282-298 | a request leaves the latch closed, and opens it only with the receive interrupt off, if and only if it is not a baud change asked for with that interrupt on |
| SerialLine.StoredIffClear | cdd/comm_hardware/ioports/Serial_Port/SerialDriver/serial.c:371 | over all interleavings, what the handler stored is what was on the line if and only if each arrival met DLAB clear or a latch holding that byte |
| SerialLine.ReadsAreLine | cdd/comm_hardware/ioports/Serial_Port/SerialDriver/serial.c:265-385 | over all interleavings of port writes, arrivals and reads: what has been handed on is the bytes of the line in order if and only if each met the flag down and the latch closed (or holding it) and each copy worked |
| SerialLine.ReadsFromLine | cdd/comm_hardware/ioports/Serial_Port/SerialDriver/serial.c:265-385 | with the latch closed at every arrival, reads are an in-order subsequence of the line, overruns or not |
| SerialLine.GuardedIsClear | cdd/comm_hardware/ioports/Serial_Port/SerialDriver/serial.c:164-298 | if each baud change is asked for with the receive interrupt disabled, no byte is misread in any interleaving |
| SerialLine.UnguardedIsNot | cdd/comm_hardware/ioports/Serial_Port/SerialDriver/serial.c:282-298 | if one is asked for with it enabled, a byte after its first write is misread unless it is the low octet of the old divisor |
| SerialLine.LatchReadForByte | cdd/comm_hardware/ioports/Serial_Port/SerialDriver/serial.c:371 | a run from boot through open and a baud change in which the divisor is stored for the byte |
| Mailbox.Port.Irq | cdd/comm_hardware/ioports/Serial_Port/SerialDriver/serial.c:351-385 | the handler on the registers and globals in any register state, handled exactly if an interrupt was pending |
| Mailbox.Port.AdvanceRead | cdd/comm_hardware/ioports/Serial_Port/SerialDriver/serial.c:265-273 | the wait, copy and clear steps of a read |
| Int32.RoundTrip | cdd/basics_cdd/multiple_cdd/CalculatorDriver.c:187-189 | an int survives its four octets |
| Int32.RoundTripBack | cdd/basics_cdd/multiple_cdd/CalculatorDriver.c:187-189 | four octets survive being read as an int |
| Int32.WrapMeaning | cdd/basics_cdd/multiple_cdd/CalculatorDriver.c:189 | an overflowing result differs from the true one by a multiple of 2 to the 32 |
| Int32.TruncDivMeaning | cdd/basics_cdd/multiple_cdd/CalculatorDriver.c:345 | C division: the remainder is smaller than the divisor and never has the sign opposite to the dividend's |
| Calculator.StepExclusive | cdd/basics_cdd/multiple_cdd/CalculatorDriver.c:115-171 | every statement of any client keeps the semaphore down exactly while somebody holds it, one holder at a time, and the table in step |
| Calculator.AtMostOneSession | cdd/basics_cdd/multiple_cdd/CalculatorDriver.c:125-169 | over all interleavings at most one session is open, and the table has the functions of the minor it read |
| Calculator.OpenGoesOn | cdd/basics_cdd/multiple_cdd/CalculatorDriver.c:125-171 | a client that waits for the semaphore can take it if and only if nobody holds it |
| Calculator.StateOfCalls | cdd/basics_cdd/multiple_cdd/CalculatorDriver.c:123-124 | MyTestdev, each client's device and each client's minor, read off the calls made so far |
| Calculator.SessionsOwnIff | cdd/basics_cdd/multiple_cdd/CalculatorDriver.c:123-154 | at every moment of a run every session has its own device's functions, if and only if for each client that switches the table the last open call before it read the minor named its device |
| Calculator.CollisionHappens | cdd/basics_cdd/multiple_cdd/CalculatorDriver.c:123-125 | an interleaving in which the client of the adder gets the subtractor |
| Calculator.ResultsAreCells | cdd/basics_cdd/multiple_cdd/CalculatorDriver.c:175-357 | while sessions are on their own devices the driver is four independent cells, each holding what the last successful write to its device computes |
| Calculator.ReadShowsOwnCell | cdd/basics_cdd/multiple_cdd/CalculatorDriver.c:205-381 | the four octets a read shows are an int, little-endian, that is the sum, difference, product or quotient (of the client's own device) of the two ints last written there, 0 before any |
| Calculator.ResultIsUnique | cdd/basics_cdd/multiple_cdd/CalculatorDriver.c:175-357 | there is only one int that is such a result: congruent modulo 2 to the 32, or with a remainder smaller than the divisor and of the dividend's sign |
| Calculator.Driver.WriteFile | cdd/basics_cdd/multiple_cdd/CalculatorDriver.c:175-357 | the four write functions through the table; a failed copy returns -EFAULT and changes no result |
| Calculator.Driver.ReadFile | cdd/basics_cdd/multiple_cdd/CalculatorDriver.c:205-381 | the four read functions: the result's octets are copied and 0 is returned |
| Vram.Device.Write | cdd/comm_hardware/iomemory/video_ram.c:70-95 | the clipped loop with a fault anywhere: what is stored, the return value, and the offset that moves only without a fault |
| Vram.Device.Read | cdd/comm_hardware/iomemory/video_ram.c:43-69 | the clipped loop with a fault anywhere: what reaches the user, the return value and the offset |
| Vram.Device.ReadToEnd | cdd/comm_hardware/iomemory/video_ram.c:50-53 | reading until 0 terminates and yields the memory from the offset to the end |
| Vram.ChunkedWrite | cdd/comm_hardware/iomemory/video_ram.c:70-95 | any sequence of writes is one write of the concatenation, clipped, with final offset min(off + total, VRAM_SIZE) |
| Vram.ChunkedRead | cdd/comm_hardware/iomemory/video_ram.c:43-69 | any sequence of reads is one read of the total, clipped |
| Vram.ReadBack | cdd/comm_hardware/iomemory/video_ram.c:43-95 | reading with any chunking returns what was written with any other chunking |
| Vram.RetryAfterFault | cdd/comm_hardware/iomemory/video_ram.c:86-89 | retrying a faulted write whole ends where a write without the fault would have |

## Left out

- SnullFlow.TransmitFindsBuffer: is about runs whose restarts met pools that were not empty; the sources do not check it, and SafeIffRestartsSupplied covers all runs.
- SnullService.NapiRefinesRegular: is about the LDD3 driver; the newer driver never schedules its poll, so it is modelled in regular mode (the model's combination of ping and NAPI describes no source).
- SnullLockup.LockupArithmetic: one sending device with the watchdog firing right after each lost interrupt; SnullSkbs covers traffic both ways.
- SnullSkbs.SkbsFreedOnce: asks that the skbs handed to a device be different ones; RegularFreedOnce does not.
- SnullSkbs.RegularFreedOnce: no open in the middle of the run, since it restarts a queue with an interrupt outstanding, and with skbs that recur one error can make up for another.
- SnullSkbs.CallTally: nothing about the counters when the newer driver is handed an skb with an interrupt outstanding, which takes an open at the wrong time; SkbsFreedOnce covers those runs.
- SnullSkbs.RunTally: the same.
- SerialLine.GuardedIsClear: one task at a time opens and configures the line; the source has no lock against two.
- SnullDevice.Device.Tx: asks for a frame of at most 1500 octets whose header length field is at least 5 and whose IP header lies inside it, which the source takes for granted: longer frames overrun data[].
- SnullDevice.Device.HwTx: asks for the same.
- Frames.PingEndToEnd: makes no claim about the ICMP checksum, which the source marks as wrong.
- Calculator.Driver.WriteFile: writes carry 8 to 80 octets and divisions have a quotient that is an int; with fewer octets the operands are whatever the stack held, with more the buffer is overrun, and other divisions trap.
- The calculator's default branch for minors above 3, since only four minors are registered.
- Counters, lengths and offsets are unbounded integers; the wrap-around of 32- and 64-bit counters is not modelled.
- `ip_fast_csum` is modelled by its meaning in RFC 1071, words taken big-endian; the status word by its two bits.
- The teardown of pools with packets in flight, the configuration, MTU, statistics and header calls, jiffies and the watchdog's clock.
- The newer snull's NAPI poll function, whose scheduling call is commented out.
- That at most one reader returns per write when wake_one is set: the source notes the race itself (slpy-proc-ctrl.c:97-99).
- The serial transmit handshake: nothing ever sets `tflag` back to 1, so NAME_write is not modelled; unsupported ioctl numbers are one no-op command.
- Module initialisation, device registration, printk, and locks beyond the atomicity of steps.
- The repository's other drivers, kernel threads, timers and tutorial programs: thin wrappers that would add only easy members.
