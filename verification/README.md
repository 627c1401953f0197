# Verified models of the rover firmware and its drive controller

This project models, in Dafny, five parts of the repository and proves properties of them:

* **The frame-buffer bridge of the CAN converter.** A fixed pool of frame buffers moves between a free pool, one
  queue per CAN channel, a queue for the host, two transfer slots and the hand of the main loop; the main loop and
  the USB interrupt share it under short critical sections. `Bridge` is a step model: one event is one critical
  section of the main loop or one whole callback, and callbacks may come between any two sections. The laws of a step
  (`BridgeSafety`, `BridgeStreams`, `BridgeChannels`, `BridgeErrors`, `BridgeDrain`) are summed over every run
  (`BridgeRuns`, `BridgeTheorems`, and `BridgeReceive` for the received messages). `BridgeMessages` follows one message
  through the sections of the main loop and the callbacks between them, `BridgeReports` one error reading to the frame
  that reports it; `BridgeSchedule` says that every pass serves every channel, and `BridgeExamples` is a run in full.
  `Firmware` is the same code on the heap, with the intrusive rings of `LinuxList` under `FrameLists`; `MainLoop` puts
  the C functions, the interrupts and `main` together and proves that the heap goes through exactly the states of a run,
  so the theorems hold of it. Numbers of buffers and channels are parameters.
  `LinuxHList` and `IrqMask` are the other halves of `list.h` and `util.h`.
* **The CAN drivers.** `ErrorFrames`, `Bxcan` and `MCan` are the error edge detectors, written in place, and what a host
  makes of their frames; `BxcanCodec` and `MCan` translate frames to registers and headers and back; `BitTiming` follows
  a bit timing into the BTR register. `DriverFits` connects both drivers with the bridge; `ReceivedIsNoError` is what
  the bridge assumes about received frames.
* **The control endpoint and the LEDs.** `Control`, `Led`, and `Ticks` for 32-bit tick counters.
* **The drive protocol of deckard.** `Drive` is the step model of the REPL thread, the core thread and the ctrl-C
  handler, with the clock: one event is one send, one receive, one command handled, one millisecond, or the end of the
  process, after which nothing happens. `DriveSafety` and `DriveTheorems` prove what holds in all interleavings;
  `DriveMoves` what the typed moves mean over the ground; `DriveEnding` and `DriveTiming` what the rover is left doing
  when the process ends, in terms of the commands that have been handled by then; `DrivePublishing` what the wheels have
  been told. `DriveThreads` is the program in the form of
  the source and goes through the states of the step model.
* **Two calculations.** `Argb` is the WS2812-over-UART encoder with the decoder the LEDs are, and `FixedSine` the
  fixed-point sine with its error bounds.

`dafny verify dfyconfig.toml` checks everything, with Dafny's default options.

## What the models show about the code

* A protocol error that `CAN_HandleError` has read is lost when the pool is empty, because the last error code is
  overwritten before the pool is looked at. The comment at `src/can_converter_firmware/src/can_common.c:123-126` says
  that it is kept; the model follows the code (`BridgeReports.BxcanProtocolError`, `BridgeReports.MCanProtocolError`).
  The error state itself is never lost (`BridgeTheorems.HostAgreesWithController`).
* Which of the three fault confinement states a controller is in does not always get through: `Bxcan.KnowsIff` and
  `MCan.KnowsIff` say exactly when, over any readings. Whether it is error active always does.
* `can_check_bittiming_ok` accepts a jump width of zero, which the register turns into silent loopback mode
  (`BitTiming.TimingPreservedIff`).
* An error frame keeps the flags of the frame that was in its buffer, so in a CAN-FD build it is sent as an FD frame
  exactly when that one was (`BridgeReports.ErrorFrameIsFdIff`); this happens after a single FD frame from the host
  (`BridgeExamples.ErrorFrameSentAsFd`).
* The comment at `src/can_converter_firmware/src/can/bxcan.c:238` says that the transmission request is cleared; the mask
  in the next line keeps exactly that bit. The register is overwritten before it matters: what `BxcanCodec.PlaceId`
  leaves in it, and so `BxcanCodec.FillMailbox`, does not depend on what it held.
* A blink is refused, and the LED shown dark, for half the range of the tick counter that begins 2^31 + 30 ticks after
  the last blink (`Led.AnsweredIff`).
* Ctrl-C sends a zero drive and gives the core thread one more second. `DriveTiming.CtrlCStopsIff` says exactly when
  the rover is left stopped if nothing is typed in that second. There are two ways to fail: a move that is past its three-second wait, or will be within
  that second, sends its drive after the zero drive; or so many commands are queued that the zero drive is not reached
  (`DriveTiming.BacklogDrives`). `quit` and the end of the input fail in the second way only (`DriveTiming.QuitStopsIff`).
* Typing `?` ends the program at once, without a zero drive and with everything queued lost
  (`DriveEnding.QuestionStopsIff`, `DriveEnding.QuestionLeavesDriving`). That the REPL believes the rover stopped does
  not help when the stop is still queued (`DriveEnding.BeliefDecidesNothing`).
* The help text at `src/deckard/src/cmd.rs:137` gives the speed `xlo` as 0.01; the code drives at 0.02
  (`DriveMoves.MovesAsAsked`).
* `powi` with exponent zero returns its argument, which is right for one only (`FixedSine.PowiZeroIff`).

## Model

| member | source | states |
|---|---|---|
| LinuxList.ListHead.constructor | src/can_converter_firmware/include/list.h:51-56 | an initialised head is an empty ring |
| LinuxList.RingIsUnique | src/can_converter_firmware/include/list.h:51-63 | the pointers alone determine the sequence: a heap holds at most one ring through a head |
| LinuxList.ListEmpty | src/can_converter_firmware/include/list.h:58-63 | true exactly for the ring without entries |
| LinuxList.ListFirstEntryOrNull | src/can_converter_firmware/include/list.h:137-138 | the first entry, or null for the ring without entries |
| LinuxList.ListIsSingular | src/can_converter_firmware/include/list.h:387-390 | true exactly for a ring of one entry |
| LinuxList.LinuxListAdd | src/can_converter_firmware/include/list.h:110-119 | inserts at the place named by the two neighbours and writes four pointers, no others |
| LinuxList.ListAdd | src/can_converter_firmware/include/list.h:196-201 | puts the entry first; nothing but the head, the old first entry and the new one is written |
| LinuxList.ListAddTail | src/can_converter_firmware/include/list.h:203-208 | puts the entry last; nothing but the head, the old last entry and the new one is written |
| LinuxList.ListDel | src/can_converter_firmware/include/list.h:87-92 | takes out the entry wherever it is, keeps the order of the rest, and leaves its own pointers alone |
| LinuxList.ListDelInit | src/can_converter_firmware/include/list.h:121-127 | takes out the entry wherever it is, keeps the order of the rest, and makes the entry an empty ring |
| LinuxList.ListReplace | src/can_converter_firmware/include/list.h:94-101 | the new entry stands exactly where the old one stood |
| LinuxList.ListMoveTail | src/can_converter_firmware/include/list.h:218-224 | moves an entry from anywhere in one ring to the end of another, both orders kept |
| LinuxList.ListRotateToFront | src/can_converter_firmware/include/list.h:226-231 | moves an entry to the end of its own ring |
| LinuxList.ListBulkMoveTail | src/can_converter_firmware/include/list.h:233-243 | a whole segment goes to the end of its ring, the order inside and outside it kept |
| LinuxList.LinuxListSplice | src/can_converter_firmware/include/list.h:245-260 | the entries of one ring are linked in between two neighbours of another, in order; an empty ring changes nothing |
| LinuxList.ListSplice | src/can_converter_firmware/include/list.h:262-267 | the spliced entries come first |
| LinuxList.ListSpliceTailInit | src/can_converter_firmware/include/list.h:284-290 | the spliced entries come last and the spliced head is empty again |
| LinuxList.CutInner | src/can_converter_firmware/include/list.h:392-402 | the entries up to and including the given one move to the other head, in order |
| LinuxList.ListCutPosition | src/can_converter_firmware/include/list.h:404-416 | the prefix moves and the rest stays; entry == head moves nothing; with an empty head neither head is touched |
| LinuxList.CutAndSpliceBack | src/can_converter_firmware/include/list.h:392-416 | cutting any prefix off and splicing it back restores every pointer of the ring |
| LinuxHList.PprevDesignates | src/can_converter_firmware/include/list.h:295-301 | pprev of every node is the address of exactly the one pointer of the list that points at the node |
| LinuxHList.HListDel | src/can_converter_firmware/include/list.h:325-332 | takes out the node, whether or not it is first, and keeps the pprev invariant |
| LinuxHList.HListDelInit | src/can_converter_firmware/include/list.h:334-342 | takes the node out and marks it unhashed; on an unhashed node nothing happens |
| LinuxHList.HListAddHead | src/can_converter_firmware/include/list.h:344-353 | puts the node first |
| LinuxHList.HListAddBefore | src/can_converter_firmware/include/list.h:355-363 | puts the node before the given one, which may be the first |
| LinuxHList.HListAddBehind | src/can_converter_firmware/include/list.h:365-375 | puts the node behind the given one, which may be the last |
| LinuxHList.HListMoveList | src/can_converter_firmware/include/list.h:377-385 | the whole list changes its head |
| IrqMask.Cpu.DisableIrq | src/can_converter_firmware/include/util.h:57-63 | interrupts are off, and the result tells whether they were on |
| IrqMask.Cpu.RestoreIrq | src/can_converter_firmware/include/util.h:71-76 | interrupts are on again only if they were on before the section |
| IrqMask.Cpu.Run | src/can_converter_firmware/include/util.h:52-76 | code with sections nested to any depth leaves the mask as it found it, and no work inside any section can be interrupted |
| FrameLists.FrameLists.TakeFirst | src/can_converter_firmware/src/can_common.c:57-67 | takes the first buffer of one ring; every other ring of the handle keeps its sequence |
| FrameLists.FrameLists.AddTail | src/can_converter_firmware/include/list.h:440-447 | a buffer on no ring becomes the last of one ring; every other ring keeps its sequence |
| FrameLists.FrameLists.AddFirst | src/can_converter_firmware/include/list.h:431-438 | a buffer on no ring becomes the first of one ring; every other ring keeps its sequence |
| Firmware.Handle.TakeFromHost | src/can_converter_firmware/src/can_common.c:57-67 | the heap does what the step model does: the head of the from-host queue goes to the main loop |
| Firmware.Handle.CanSend | src/can_converter_firmware/src/can_common.c:71-81 | a sent frame is changed by can_send, its reserved byte and timestamp; one that was not sent is not |
| Firmware.Handle.PutBackFirst | src/can_converter_firmware/src/can_common.c:71-74 | a frame that could not be sent goes back to the head of its queue |
| Firmware.Handle.QueueToHost | src/can_converter_firmware/src/can_common.c:83 | the held buffer goes to the end of list_to_host |
| Firmware.Handle.ReturnToPool | src/can_converter_firmware/src/can_common.c:110-113 | the held buffer goes to the end of the pool |
| Firmware.Handle.TakeFromPool | src/can_converter_firmware/src/can_common.c:96-106 | the head of the pool goes to the main loop, which is told when there is none |
| Firmware.Handle.CanReceive | src/can_converter_firmware/src/can_common.c:110-116 | a received frame carries its channel, the not-an-echo mark and a clear reserved byte |
| Firmware.Handle.ParseErrorStatus | src/can_converter_firmware/src/can_common.c:149-153 | the error frame of the remembered and the new reading is written and the new reading remembered |
| Firmware.Handle.TakeForReceive | src/can_converter_firmware/src/usbd_gs_can.c:736-751 | from_host_buf is filled from the pool only if it was null |
| Firmware.Handle.TakeForTransmit | src/can_converter_firmware/src/usbd_gs_can.c:817-832 | to_host_buf is filled from list_to_host only if it was null |
| Firmware.Handle.SendFrame | src/can_converter_firmware/src/usbd_gs_can.c:756-764 | an IN transfer starts exactly when the bus is not suspended |
| Firmware.Handle.DropTransmit | src/can_converter_firmware/src/usbd_gs_can.c:838-841 | a frame that could not be transmitted goes to the head of the pool |
| Firmware.Handle.DataIn | src/can_converter_firmware/src/usbd_gs_can.c:578-588 | the transmitted buffer goes to the end of the pool and to_host_buf is null |
| Firmware.Handle.NextOutBuffer | src/can_converter_firmware/src/usbd_gs_can.c:617-633 | the next OUT transfer is armed exactly when the pool has a buffer for it |
| Firmware.Handle.AcceptOut | src/can_converter_firmware/src/usbd_gs_can.c:613-633 | the received frame goes to the end of its channel, before the next buffer is taken |
| Firmware.Handle.DataOut | src/can_converter_firmware/src/usbd_gs_can.c:591-639 | short frames, frames for no channel and short FD frames are received into the same buffer again; all others are queued |
| MainLoop.Callback | src/can_converter_firmware/src/usbd_gs_can.c:578-639 | a callback the hardware can cause takes the heap along the step model; no buffer pointer it follows is null |
| MainLoop.Interrupt | src/can_converter_firmware/src/usbd_gs_can.c:578-639 | any sequence of callbacks takes the heap along the run of the same events and leaves the main loop where it is |
| MainLoop.CanSendFrame | src/can_converter_firmware/src/can_common.c:53-86 | with any interrupts after each section, the function goes through a run of the step model and ends after its channel |
| MainLoop.CanReceiveFrame | src/can_converter_firmware/src/can_common.c:88-121 | with any interrupts after each section, all four ways through the function are runs of the step model from its start to CAN_HandleError of the same channel |
| MainLoop.CanHandleError | src/can_converter_firmware/src/can_common.c:127-158 | with any interrupts after each section, all four ways through the function are runs of the step model that end at the next channel |
| MainLoop.ReceiveFromHost | src/can_converter_firmware/src/usbd_gs_can.c:732-754 | with an interrupt between taking the buffer and arming the transfer or not, the function is a run of the step model |
| MainLoop.SendToHost | src/can_converter_firmware/src/usbd_gs_can.c:813-842 | whether it transmits, drops or finds nothing, with interrupts after each section, the function is a run of the step model |
| MainLoop.Pass | src/can_converter_firmware/src/main.c:110-133 | one pass of the loop, over any number of channels, is a run of the step model back to the top of the loop |
| MainLoop.FillPool | src/can_converter_firmware/src/main.c:75-77 | after the loop the pool ring holds all buffers in order |
| MainLoop.Boot | src/can_converter_firmware/src/main.c:72-86 | the heap main builds is the initial state of the step model |
| MainLoop.RunFirmware | src/can_converter_firmware/src/main.c:64-133 | main with any number of passes, any answers of the peripherals and any callbacks: the heap is in the state of that very run of the step model |
| MainLoop.ExecutionIsRun | src/can_converter_firmware/src/main.c:110-133 | an execution of the main loop with its interrupts is one of the runs all theorems speak about |
| MainLoop.RingsOwnTheirEntries | src/can_converter_firmware/src/usbd_gs_can.c:578-639 | in the heap, an entry of a ring is no other entry of any ring and neither transfer pointer leads to it |
| BridgeSafety.StepConserves | src/can_converter_firmware/src/can_common.c:53-158 | no section of the main loop and no callback changes how often a buffer is referenced |
| BridgeSafety.StepKeepsWellFormed | src/can_converter_firmware/src/usbd_gs_can.c:578-639 | conservation, transfer discipline and the shape of the state survive every step |
| BridgeSafety.InitWellFormed | src/can_converter_firmware/src/main.c:72-86 | the state main sets up has every buffer once |
| BridgeRuns.TransferDiscipline | src/can_converter_firmware/src/usbd_gs_can.c:226-239 | at every point of every run an OUT transfer is armed exactly when there is a buffer for it outside the arming window, at most one IN transfer is under way, and callbacks never meet a missing buffer |
| BridgeTheorems.OwnedByOnePlace | src/can_converter_firmware/src/usbd_gs_can.c:578-639 | at every point of every run each buffer is in exactly one of the pool, a from-host queue, the to-host queue, the two transfer slots and the hand of the main loop |
| BridgeStreams.OutgoingLaw | src/can_converter_firmware/src/can_common.c:53-158 | one step: what leaves to_host_buf and what is left are what was there and what was queued, in order |
| BridgeChannels.ChannelLaw | src/can_converter_firmware/src/can_common.c:53-86 | one step keeps, per channel: accepted equals passed on followed by still waiting, also when a failed send and DataOut act on the two ends of a queue |
| BridgeTheorems.OutgoingIsFifo | src/can_converter_firmware/src/usbd_gs_can.c:813-842 | in every run the frames generated for the host are those that left, then to_host_buf, then list_to_host |
| BridgeTheorems.EchoedOnceInOrder | src/can_converter_firmware/src/can_common.c:53-86 | in every run, per channel, the host frames accepted are the echoes that left, to_host_buf, list_to_host, the frame in the hand of CAN_SendFrame and list_from_host: each echoed once and in order |
| BridgeTheorems.SentOnceInOrder | src/can_converter_firmware/src/can_common.c:66-74 | in every run, per channel, the frames given to can_send with success are the accepted ones in order, each once |
| BridgeTheorems.DeliveryKeepsOrder | src/can_converter_firmware/src/usbd_gs_can.c:813-842 | with any suspends the delivered frames are a subsequence of the generated ones |
| BridgeTheorems.NothingDroppedAwake | src/can_converter_firmware/src/usbd_gs_can.c:756-764 | without a suspend everything generated is delivered or still waiting, in order |
| BridgeTheorems.SuspendedIff | src/can_converter_firmware/src/usbd_gs_can.c:851-870 | at every point of every run the flag tells whether the bus was suspended last or resumed |
| BridgeErrors.AgreementLaw | src/can_converter_firmware/src/can_common.c:127-158 | one step keeps the belief of the host in agreement with the remembered status, however many readings are skipped |
| BridgeTheorems.HostAgreesWithController | src/can_converter_firmware/src/can_common.c:127-158 | in every run the error frames generated for a channel, with one on its way to the queue, tell exactly whether the remembered status is error active |
| BridgeTheorems.DrainedHostAgrees | src/can_converter_firmware/src/can_common.c:127-158 | without a suspend, once nothing is left to deliver, the error frames delivered tell the host exactly whether the remembered status is error active |
| BridgeDrain.WorkLaw | src/can_converter_firmware/src/can_common.c:66-83 | 3 per from-host frame, 2 per to-host frame and 1 for to_host_buf: goes down by one with each productive step and up only with new input |
| BridgeDrain.WorkAccount | src/can_converter_firmware/src/can_common.c:66-83 | over any stretch of any run, productive steps and work left are the work there was and the work that came in |
| BridgeDrain.BuffersAddUp | src/can_converter_firmware/src/usbd_gs_can.c:578-639 | the lengths of all places add up to the number of buffers |
| BridgeDrain.DrainsWithin | src/can_converter_firmware/src/usbd_gs_can.c:578-588 | without new input at most 3N productive steps are made; then every buffer is back in the pool but for from_host_buf and one in the hand of the main loop |
| BridgeDrain.BackpressureReleased | src/can_converter_firmware/src/usbd_gs_can.c:732-754 | with the work done, ReceiveFromHost arms a transfer |
| BridgeDrain.IdlePassWaitsForHost | src/can_converter_firmware/src/main.c:110-133 | a pass that makes no progress although a mailbox is free is waiting for the host to collect an IN transfer: no deadlock |
| BridgeDrain.Drains | src/can_converter_firmware/src/main.c:110-133 | after three passes per buffer without new input, with a mailbox free and one collection by the host in each, every frame has been sent, echoed and collected and every buffer is back in the pool but for from_host_buf |
| ErrorFrames.HostReads | src/can_converter_firmware/include/gs_usb.h:95-119 | what a host makes of an error frame depends on three edges of the report, bus-off and passive first |
| ErrorFrames.ClearError | src/can_converter_firmware/src/can/bxcan.c:308-318 | the frame is the error frame that reports nothing, its channel, flags and timestamp kept |
| ErrorFrames.ReportActive | src/can_converter_firmware/src/can/bxcan.c:336-340 | the frame reports the edge to error active besides what it reported |
| ErrorFrames.ReportLevel | src/can_converter_firmware/src/can/bxcan.c:349-361 | the frame reports the edges to passive, or else to the warning level |
| ErrorFrames.PutCounters | src/can_converter_firmware/src/can/bxcan.c:342-347 | the frame carries the two counters besides what it reported |
| ErrorFrames.ReportLec | src/can_converter_firmware/src/can/bxcan.c:363-396 | the frame reports the protocol error besides what it reported, and the answer is yes exactly for an error |
| ErrorFrames.ReportSays | src/can_converter_firmware/src/can/m_can.c:341-413 | bit by bit: class bits of can_id, control bits of byte 1, the number of the last error code out of bytes 2 and 3, both counters, are those of the report; channel, flags, reserved byte and timestamp stay |
| Bxcan.ReportEdges | src/can_converter_firmware/src/can/bxcan.c:335-361 | the edges between two status words outside bus-off are in the frame |
| Bxcan.ReportBusOff | src/can_converter_firmware/src/can/bxcan.c:320-333 | in the bus-off state only the edge into it is reported |
| Bxcan.ParseErrorStatus | src/can_converter_firmware/src/can/bxcan.c:298-399 | the frame is the error frame of the edges between the remembered and the new status, worth sending exactly when it reports something |
| Bxcan.DriverFits | src/can_converter_firmware/src/can/bxcan.c:293-399 | whatever two readings are compared, a host that agreed with the first agrees with the second: the driver meets what the buffer protocol asks of it |
| Bxcan.FrameSays | src/can_converter_firmware/src/can/bxcan.c:298-399 | for any two status words, in bits: which edges, which number of the last error code (1 to 6, nothing for 0 and 7, nothing in bus-off) and which counter in which byte the frame carries, and that it is sent exactly when it carries an edge or a code |
| Bxcan.StateKnownIff | src/can_converter_firmware/src/can/bxcan.c:293-399 | a host that knows which of the three fault confinement states held knows the new one exactly unless bus-off is left with the passive flag set all along |
| Bxcan.StatesFollowed | src/can_converter_firmware/src/can/bxcan.c:326-331 | if the controller clears the passive flag in bus-off, as the comment says, the host knows all three states after any readings |
| Bxcan.StateMissed | src/can_converter_firmware/src/can/bxcan.c:320-333 | without that a host is left believing in bus-off |
| Bxcan.KnowsIff | src/can_converter_firmware/src/can/bxcan.c:293-399 | over any readings, from knowing or not: the host knows the state at the end exactly when every unreported change was followed by a reported edge, and is wrong only as believing in bus-off of a passive controller |
| MCan.ReportBus | src/can_converter_firmware/src/can/m_can.c:340-353 | the edges to error active and into bus-off are in the frame |
| MCan.ParseErrorStatus | src/can_converter_firmware/src/can/m_can.c:316-414 | the frame is the error frame of the edges between the remembered and the new status, in bus-off too, with the counters of ECR |
| MCan.DriverFits | src/can_converter_firmware/src/can/m_can.c:311-414 | whatever two readings and counters are compared, a host that agreed with the first reading agrees with the second, so this driver fits the bridge |
| MCan.FrameSays | src/can_converter_firmware/src/can/m_can.c:316-414 | for any two status words and counters, in bits: which edges, which number of the last error code and which counter in which byte the frame carries, and that it is sent exactly when it carries an edge or a code |
| MCan.StateKnownIff | src/can_converter_firmware/src/can/m_can.c:311-414 | a host that knows which of the three fault confinement states held knows the new one exactly unless the passive flag rises during bus-off or bus-off is left with it set all along |
| MCan.KnowsIff | src/can_converter_firmware/src/can/m_can.c:311-414 | over any readings, from knowing or not: exactly when the host knows the state at the end; it can only take bus-off for error passive or the reverse |
| BridgeReports.CallbacksKeep | src/can_converter_firmware/src/usbd_gs_can.c:578-639 | whatever callbacks come between two sections, the main loop keeps its place, the frame in its hand and the remembered readings |
| BridgeReports.StatusRead | src/can_converter_firmware/src/can_common.c:127-131 | the status is read only without a message pending, and what was read is what is used when a buffer has been found |
| BridgeReports.ReadingReported | src/can_converter_firmware/src/can_common.c:134-157 | with a buffer in the pool, and any callbacks between the sections, the reading is remembered and exactly the error frame the driver makes of it is queued, or nothing if it is not worth sending |
| BridgeReports.ReadingForgotten | src/can_converter_firmware/src/can_common.c:134-142 | with the pool empty nothing is queued and the status remembered before stays |
| BridgeReports.BxcanProtocolError | src/can_converter_firmware/src/can_common.c:123-147 | with a buffer in the pool the frame queued names exactly the number in bits 4 to 6 of the status word if it is 1 to 6 and the controller is not in bus-off, and no frame queued names another; with none the code is lost, contrary to the comment |
| BridgeReports.MCanProtocolError | src/can_converter_firmware/src/can_common.c:123-147 | with a buffer in the pool the frame queued names exactly the number in bits 0 to 2 of the status word if it is 1 to 6, in bus-off too, and no frame queued names another; with none the code is lost |
| BridgeReports.ErrorFrameIsFdIff | src/can_converter_firmware/src/can/m_can.c:316-338 | an error frame is an FD frame, and sent with 64 data bytes in a CAN-FD build, exactly when the frame that was in the buffer before was one |
| BridgeExamples.ErrorFrameSentAsFd | src/can_converter_firmware/src/usbd_gs_can.c:766-792 | a run from the start in which a host sends one FD frame and the next error frame goes out as an FD frame |
| BridgeReceive.ReceptionLaw | src/can_converter_firmware/src/can_common.c:90-118 | one step: what was in receipt and what is read are what is queued as a received message and what is in receipt then, for every channel |
| BridgeReceive.ReceivedOnceInOrder | src/can_converter_firmware/src/can_common.c:90-118 | in every run with a polite host, per channel: the messages read from the controller are, with identifier, DLC, data, flags and timestamp, those of the non-echo non-error frames that left, are in to_host_buf, in list_to_host, or about to be queued: each once and in order |
| BridgeMessages.MessageReceived | src/can_converter_firmware/src/can_common.c:90-118 | with a message pending and a buffer in the pool, and any callbacks between the sections, exactly the message read is queued as one frame of its channel, NOT_ECHO, reserved zero; if the controller has none after all, nothing is |
| BridgeMessages.NothingReceived | src/can_converter_firmware/src/can_common.c:94-106 | without a message pending nothing is taken; without a buffer nothing is read and nothing queued |
| BridgeMessages.FrameSent | src/can_converter_firmware/src/can_common.c:53-88 | with any callbacks between the sections, the first frame of the channel queue goes to the bus and exactly its echo is queued with the time; with no mailbox it is first again, unchanged |
| BridgeMessages.HostFrameTakenIff | src/can_converter_firmware/src/usbd_gs_can.c:591-639 | a host frame joins its channel exactly when the channel exists and header and data (12 + 8, or 12 + 64 for an FD frame in a CAN-FD build) have arrived, and the next buffer of the pool is armed; otherwise no queue changes and the same buffer stays armed |
| BridgeMessages.FrameHandedOver | src/can_converter_firmware/src/usbd_gs_can.c:813-842 | the first frame for the host is handed to a transfer awake and delivered when it completes, its buffer last in the pool; suspended it is dropped, its buffer first in the pool |
| BridgeMessages.CallbacksLeaveIn | src/can_converter_firmware/src/usbd_gs_can.c:578-589 | no callback touches the buffer SendToHost is deciding about |
| BridgeSchedule.EveryChannelServed | src/can_converter_firmware/src/main.c:110-127 | from the top of the loop, whatever is found and whatever the interrupt does, within fifteen sections per channel and five more every channel has been sent on, received on and its errors read, and the loop is at its top again |
| BridgeSchedule.LoopContinues | src/can_converter_firmware/src/main.c:110-127 | every section stays in its function and comes closer to its end, or is its last and begins the next function of the pass |
| BxcanCodec.FindFreeMailbox | src/can_converter_firmware/src/can/bxcan.c:217-231 | the first empty mailbox, or none exactly when none is empty |
| BxcanCodec.FillMailbox | src/can_converter_firmware/src/can/bxcan.c:238-267 | the four registers hold the frame, the transmission requested and the upper length bits kept |
| BxcanCodec.CanSend | src/can_converter_firmware/src/can/bxcan.c:233-279 | exactly the first empty mailbox is written and only then the flags are cleared |
| BxcanCodec.CanReceive | src/can_converter_firmware/src/can/bxcan.c:177-215 | a pending message is in the frame and its FIFO place released; without one nothing changes |
| BxcanCodec.SendThenReceive | src/can_converter_firmware/src/can/bxcan.c:177-279 | sending and receiving gives the normalised identifier, four DLC bits and all eight data bytes |
| BxcanCodec.IdBackIff | src/can_converter_firmware/src/can/bxcan.c:186-194 | receiving and sending gives the identifier register back exactly when it has no stray bits |
| BxcanCodec.ReceiveThenSendIff | src/can_converter_firmware/src/can/bxcan.c:177-279 | receiving and sending gives both data registers and the DLC back, and the identifier register exactly when it has no stray bits |
| BxcanCodec.ReceivedIsNoError | src/can_converter_firmware/src/can/bxcan.c:186-197 | whatever is in the registers, a received frame has no error flag and belongs to its channel |
| MCan.CanReceive | src/can_converter_firmware/src/can/m_can.c:219-247 | the frame is the one the header describes |
| MCan.SendThenReceive | src/can_converter_firmware/src/can/m_can.c:211-299 | sending and receiving gives the normalised identifier, four DLC bits and, on FD frames, the FD flags |
| MCan.ReceiveThenSend | src/can_converter_firmware/src/can/m_can.c:211-299 | receiving a message and sending the frame gives the header back |
| MCan.ReceivedIsNoError | src/can_converter_firmware/src/can/m_can.c:219-231 | a received frame has no error flag and belongs to its channel |
| BitTiming.TimingFields.SetBittiming | src/can_converter_firmware/src/can/bxcan.c:90-98 | the fields hold the low bits of the timing, the segment sum wrapped first |
| BitTiming.Narrowing | src/can_converter_firmware/src/can/bxcan.c:90-98 | the stores into shorter fields lose nothing of an accepted timing |
| BitTiming.FieldsDecode | src/can_converter_firmware/src/can/bxcan.c:112-115 | the fields of the register do not overlap |
| BitTiming.TimingFields.BtrValue | src/can_converter_firmware/src/can/bxcan.c:112-123 | the register holds the four fields and the two mode bits |
| BitTiming.TimingPreservedIff | src/can_converter_firmware/src/can_common.c:36-51 | for every accepted timing, a wrapping sum included, the register decodes to what was asked for exactly when sjw is not zero; with zero the controller goes silent and loops back |
| BitTiming.TimingFields.Configure | src/can_converter_firmware/src/can/bxcan.c:90-123 | storing an accepted timing in the channel and building the register from it encodes the request exactly when sjw is not zero |
| BitTiming.AcceptedIff | src/can_converter_firmware/src/can_common.c:36-51 | apart from the zero jump width exactly the timings are accepted that some value of the register encodes |
| Drive.PlansSuit | src/deckard/src/cmd.rs:142-287 | every move that is accepted drives with a nonzero speed in the pattern that suits the wheel position it steers to |
| DriveMoves.MovesAsAsked | src/deckard/src/cmd.rs:97-287 | a move is accepted exactly when its angle is in (-90, 90]; straight and strafing moves roll all wheels the same way over the ground, at that angle, circles turn on the spot; at the speed in hundredths and in the direction of the word |
| DriveMoves.MinusReverses | src/deckard/src/cmd.rs:97-115 | a speed word with a minus sign drives exactly opposite to the word without it, with the wheels at the same place |
| DriveMoves.KeysAreWords | src/deckard/src/cmd.rs:196-222 | w, s, q, e, d and a, dotted, lower or upper case, are the same moves as straight, strafe 90 and circle, forwards or backwards, at xlo, lo or mid |
| DriveMoves.MoveTyped | src/deckard/src/cmd.rs:142-289 | from the prompt in any reachable state a move in range can be finished without another line, and then the last drive sent and the wheels do what was asked; one out of range changes nothing |
| DriveMoves.MoveSends | src/deckard/src/cmd.rs:226-287 | the commands a move sends, in order: only the drive if the wheels are believed to be there, otherwise a stop, the positions and the notification before it |
| DriveMoves.StopTyped | src/deckard/src/cmd.rs:81-89 | stop sends one zero drive, and the rover is believed stopped |
| DriveMoves.QuitTyped | src/deckard/src/main.rs:399-428 | quit is refused exactly when the rover is believed stopped with its wheels not straight and the question is not answered with yes |
| DriveSafety.StepInv | src/deckard/src/cmd.rs:227-287 | every step of every thread keeps the invariant of the protocol |
| DriveTheorems.ObserverReads | src/deckard/src/main.rs:236-296 | the running observer agrees with the definitions over the whole log |
| DriveTheorems.NeverSteersWhileDriving | src/deckard/src/cmd.rs:227-287 | in every interleaving steering is handled only after a zero drive, and a nonzero drive only after all steering is resolved and with suitable wheels |
| DriveTheorems.OneNotification | src/deckard/src/main.rs:273-296 | at most one notification is outstanding, exactly while the REPL waits, and it is always on its way |
| DriveTheorems.PromptAgrees | src/deckard/src/cmd.rs:81-89 | at the prompt the wheels are where the REPL believes; believing to be stopped is right, and without ctrl-C exact |
| DriveTheorems.MoveCompletes | src/deckard/src/cmd.rs:227-288 | from anywhere in a move there is a way to its end: the threads cannot block each other |
| DriveEnding.CtrlCOutcome | src/deckard/src/main.rs:317-325 | at any time after ctrl-C the last drive handled is zero exactly when: with only queued commands handled, the last drive among them is zero; with more, no drive of a late move was handled after the zero drive |
| DriveEnding.QuitOutcome | src/deckard/src/main.rs:441-447 | after quit or the end of the input the last drive handled is zero exactly when the zero drive was handled or the last drive before it is zero |
| DriveTiming.BoundedRun | src/deckard/src/main.rs:236-284 | in the last second, whatever the threads do, the core thread is never faster than its sleeps allow and never slower than they and its receive time-outs make it |
| DriveTiming.Takes | src/deckard/src/main.rs:236-284 | for every number of commands within these bounds there is a run in which the core thread has handled just so many when the process ends |
| DriveTiming.CtrlCStopsIff | src/deckard/src/main.rs:317-325 | ctrl-C, with nothing typed after it, leaves the rover stopped in every run exactly when a move that is past its wait, or will be within the second, has no time to end, and no number of queued commands that can be handled in that second ends with a drive |
| DriveTiming.QuitStopsIff | src/deckard/src/main.rs:441-447 | quit and the end of the input leave the rover stopped in every run exactly when no number of queued commands that can be handled in the last second ends with a drive |
| DriveTiming.DrainedStopsIff | src/deckard/src/main.rs:317-325 | with nothing queued, ctrl-C leaves the rover stopped exactly when a move in progress, if any, is not past its wait and will not be so within the second |
| DriveTiming.BacklogDrives | src/deckard/src/main.rs:317-325 | with more moves pasted than can be handled in a second, neither ctrl-C at the prompt nor the end of the input stops the rover |
| DriveEnding.QuestionStopsIff | src/deckard/src/cmd.rs:45-62 | the word "?" ends the process at once and the queue is lost; the rover is left stopped exactly when the last drive among the commands taken from the queue is zero, which with no drive queued and no ctrl-C is when it was believed to be stopped |
| DriveEnding.QuestionLeavesDriving | src/deckard/src/cmd.rs:45-62 | a run in which a drive has been handled, and the word "?" leaves it on for good |
| DriveEnding.BeliefDecidesNothing | src/deckard/src/cmd.rs:45-62 | two runs with the rover believed stopped and the same command queued; the word "?" leaves one driving and one stopped |
| DrivePublishing.WheelsToldLast | src/deckard/src/main.rs:238-272 | what was published last on the subject of each motor and each stepper is the value of its wheel in the last drive and steering command handled |
| DrivePublishing.SubjectsToldLast | src/deckard/src/main.rs:238-272 | by subject number: front left, front right, back left, back right |
| DrivePublishing.ToldThrice | src/deckard/src/main.rs:238-272 | every motor is told each drive command three times and every stepper each steering command |
| DriveThreads.Deckard.PublishThrice | src/deckard/src/main.rs:260-271 | three rounds of four messages, each on the subject of its wheel, and a sleep after each round |
| DriveThreads.Deckard.HandleCommand | src/deckard/src/main.rs:236-284 | the core thread takes one command, publishes it and does its effect, or finds none |
| DriveThreads.Deckard.ResolveNotification | src/deckard/src/main.rs:285-296 | a notification in flight is sent once |
| DriveThreads.Deckard.OnInterrupt | src/deckard/src/main.rs:317-325 | one zero drive is sent and the end of the process set for a second later |
| DriveThreads.Deckard.StopRun | src/deckard/src/cmd.rs:81-89 | one zero drive is sent and the rover believed stopped |
| DriveThreads.Deckard.Steer | src/deckard/src/cmd.rs:231-260 | stop, steer and notify are sent in this order with other threads in between, and the wheels are updated only on the notification |
| DriveThreads.Deckard.MoveRun | src/deckard/src/cmd.rs:142-289 | Move::run goes through states of the step model, whatever the other threads do between its steps |
| DriveThreads.Deckard.ReadLine | src/deckard/src/main.rs:362-439 | one line takes the REPL along the step model, to the prompt, an end or a wait, unless the process ends first |
| DriveThreads.Deckard.Loop | src/deckard/src/main.rs:343-446 | any number of lines takes the REPL along the step model, to the prompt, an end or a wait, unless the process ends first |
| DriveThreads.ExecutionIsRun | src/deckard/src/main.rs:343-446 | what the threads do under any schedule is one of the runs the theorems speak about |
| Ticks.PassedAgreesIff | src/can_converter_firmware/src/led.c:33 | the 32-bit comparison agrees with unbounded time exactly when the times are an even number of half ranges apart, in particular within half the range |
| Led.Playback | src/can_converter_firmware/src/led.c:109-139 | after any number of due updates: which step is shown, how often is left; a count of n plays n + 1 times and stops for good, a negative one never stops |
| Led.StepLasts | src/can_converter_firmware/src/led.c:64-76 | a step is over at an update ten milliseconds for each unit of its byte after it was shown, and not before |
| Led.ReadsStayInsideIff | src/can_converter_firmware/src/led.c:64-76 | no read goes past the sequence exactly when a step after the first takes no time |
| Led.BlinkRule | src/can_converter_firmware/src/led.c:91-107 | no blink within 45 ticks of the last; dark for 30, then lit for 15, whatever is requested |
| Led.BlinksApart | src/can_converter_firmware/src/led.c:91-107 | from boot, over any run of updates without a time limit, any two blinks start at least 45 ticks apart |
| Led.BlinksAreAsked | src/can_converter_firmware/src/led.c:91-107 | over any run of updates there are never more blinks than updates with traffic, and the first request |
| Led.UpdatesApart | src/can_converter_firmware/src/led.c:141-147 | the next update is accepted exactly from ten milliseconds after the last on |
| Led.AnsweredIff | src/can_converter_firmware/src/led.c:91-107 | traffic is answered exactly while the wrapped differences agree; first refused 2^31 + 30 ticks after the last blink |
| Led.LedState.Set | src/can_converter_firmware/src/led.c:55-62 | the LED is lit or dark whatever the polarity of the pin |
| Led.LedState.TrxBlinker | src/can_converter_firmware/src/led.c:91-97 | a blink is started exactly when both deadlines have passed |
| Led.LedState.UpdateNormal | src/can_converter_firmware/src/led.c:99-107 | a request is used up, and the LED is lit exactly when the off time has passed |
| Led.LedData.IndicateTrx | src/can_converter_firmware/src/led.c:87-89 | the request of one LED is noted and nothing else changes |
| Led.LedData.SetSequenceStep | src/can_converter_firmware/src/led.c:64-76 | both LEDs show the step and the next deadline is set |
| Led.LedData.UpdateSequence | src/can_converter_firmware/src/led.c:109-139 | a due update is one step of the player and sets the deadline of the step it shows; otherwise nothing changes |
| Led.LedData.Update | src/can_converter_firmware/src/led.c:141-169 | at most one update per interval; each mode does its own; the assertion is never reached |
| Led.LedData.RunSequence | src/can_converter_firmware/src/led.c:78-85 | the player is at the first step of the sequence with the full count, or one due update further |
| Led.LedData.SetMode | src/can_converter_firmware/src/led.c:49-53 | the mode is set; setting it to OFF darkens both LEDs at the next accepted update and leaves the player alone |
| Control.UsbControl.HandleSetup | src/can_converter_firmware/src/usbd_gs_can.c:300-427 | what is answered to every request, and that only a request that will be followed by data replaces the remembered one |
| Control.UsbControl.HandleData | src/can_converter_firmware/src/usbd_gs_can.c:479-576 | the remembered request is applied to its channel, timings only if they were checked, and never through a missing channel; a start leaves it enabled with LED mode NORMAL, a reset disabled with LED mode OFF |
| Control.UsbControl.Suspend | src/can_converter_firmware/src/usbd_gs_can.c:851-864 | all channels are disabled and dark |
| Control.ReceivedIff | src/can_converter_firmware/src/usbd_gs_can.c:300-427 | which requests are received, answered with data or stalled, by channel number, length of the struct and build |
| Control.ModeRequestDoes | src/can_converter_firmware/src/usbd_gs_can.c:517-533 | after a mode request and its data: mode 0 disables the channel with LED mode OFF, mode 1 enables it with the flags and LED mode NORMAL, others do nothing; timing and all other channels stay |
| Control.SuspendDoes | src/can_converter_firmware/src/usbd_gs_can.c:851-864 | after a suspend every channel is disabled with LED mode OFF and nothing else of it changes |
| Control.EnabledIffStarted | src/can_converter_firmware/src/usbd_gs_can.c:479-533 | in every run a channel is enabled exactly when the last start, reset or suspend that reached it was a start |
| Control.IdentifyAlternates | src/can_converter_firmware/src/usbd_gs_can.c:535-545 | an identify request shows the two LEDs in turn, 100 milliseconds each, for any number of updates; ending it shows whether the channel is enabled; nothing else changes |
| Control.DataRequestDoes | src/can_converter_firmware/src/usbd_gs_can.c:546-566 | a data bit timing within its limits and a termination change their channel and nothing else |
| Control.StepKeeps | src/can_converter_firmware/src/usbd_gs_can.c:300-427 | every setup, data stage and suspend keeps the invariant of the control path |
| Control.NeverFaults | src/can_converter_firmware/src/usbd_gs_can.c:479-576 | in every run: no missing channel is followed, every bit timing was checked, and the LED mode is OFF only when disabled, NORMAL only when enabled and otherwise SEQUENCE |
| Control.CheckNeededIff | src/can_converter_firmware/src/usbd_gs_can.c:318-324 | without its check of the channel number the device would follow a missing channel exactly after a well-formed per-channel request for one that is not there; with it never |
| Control.TimingTakesEffectIff | src/can_converter_firmware/src/usbd_gs_can.c:508-516 | a timing request changes its channel, and nothing else, exactly when it has the right length and is within the limits |
| Control.Exchange | src/can_converter_firmware/src/usbd_gs_can.c:479-576 | a request the device can take and its data change the channel of the request and no other |
| Control.StartsAsAskedIff | src/can_converter_firmware/src/usbd_gs_can.c:508-533 | after a timing request and a start request the channel is enabled and its BTR register decodes to the timing and mode asked for exactly when sjw is not zero |
| Control.IdentifyEnds | src/can_converter_firmware/src/usbd_gs_can.c:473-477 | the identify sequence can be played without reading past it |
| Argb.AsUartBytes | src/embedded_common/src/argb.rs:16-37 | the eight words are the table entries of the eight groups of three bits, highest first |
| Argb.LutLine | src/embedded_common/src/argb.rs:18-26 | every table entry is, on the inverted line with start and stop bit, three pulses for its three bits |
| Argb.ColourOnLine | src/embedded_common/src/argb.rs:28-36 | a colour is on the line one pulse for each of its 24 bits in the order green, red, blue, highest first |
| Argb.EncodedIsShown | src/embedded_common/src/argb.rs:92-100 | any number of colours is read back from the line |
| Argb.Controller.Display | src/embedded_common/src/argb.rs:92-100 | what is sent makes the LEDs read the pattern, each red, green and blue at the brightness, cut off |
| Argb.Dimmed | src/embedded_common/src/argb.rs:42-48 | the part x / 255 of the value, cut off: 255 r <= v x < 255 (r + 1); 16 bits are enough |
| Argb.ScaledIs | src/embedded_common/src/argb.rs:42-48 | every part of every colour is scaled by itself |
| Argb.ScaleDims | src/embedded_common/src/argb.rs:42-48 | full brightness changes nothing, none is black, more is never darker |
| FixedSine.PowiLoop | src/vesc_firmware/src/utils.rs:20-26 | the loop computes the repeated product cut off below |
| FixedSine.PowiError | src/vesc_firmware/src/utils.rs:20-26 | up to magnitude one, powi is within p - 1 units of the power, for every p >= 1 |
| FixedSine.PowiZeroIff | src/vesc_firmware/src/utils.rs:20-26 | with exponent zero powi is right for the number one only |
| FixedSine.FoldLands | src/vesc_firmware/src/utils.rs:30-36 | every angle between -pi and pi is folded between -pi/2 and pi/2 |
| FixedSine.NothingOverflows | src/vesc_firmware/src/utils.rs:38-39 | no power on the way to the sine leaves 16.16 |
| FixedSine.SinError | src/vesc_firmware/src/utils.rs:30-40 | sin is within 2.5 units of c - c^3/6 + c^5/127 |
| FixedSine.SinBounded | src/vesc_firmware/src/utils.rs:30-40 | no sine is further from zero than 1 + 2^-12 |
| FixedSine.Sin | src/vesc_firmware/src/utils.rs:30-40 | the code that folds the angle in place computes the sine, within 2.5 units of the polynomial and at most 1 + 2^-12 |
| FixedSine.Cos | src/vesc_firmware/src/utils.rs:44-50 | cos is the sine of what the size of the angle leaves of a quarter turn, within 2.5 units of the polynomial there, and at most 1 + 2^-12 |
| FixedSine.RemainingIs | src/vesc_firmware/src/utils.rs:44-50 | that angle is a quarter turn less the size of the angle, or one unit more |

## Left out

- BridgeTheorems.HostAgreesWithController: assumes that the host never uses echo_id 0xFFFFFFFF, the value that marks frames which are no echoes; with it an accepted frame could pass for an error frame.
- BridgeReceive.ReceivedOnceInOrder: assumes the same of the host; with that value the echo of its frame could pass for a received message.
- BridgeTheorems.DrainedHostAgrees: says nothing about runs with a suspend, in which error frames can be dropped.
- MainLoop.Callback: assumes of the hardware and the host that DataOut comes only while an OUT transfer is armed, DataIn only while an IN transfer is under way (section 5.8 of the USB 2.0 specification), and that the device is configured once, after the first ReceiveFromHost; a second enumeration and USBD_GS_CAN_DeInit are not part of this model.
- Firmware.Handle.CanSend: the driver is a parameter with the effect `can_send` has on the frame; the registers it writes are in `BxcanCodec` and `MCan`.
- Firmware.Handle.ParseErrorStatus: frames are values in an array here; the same function written in place, byte by byte, is in `Bxcan` and `MCan`.
- FrameLists.FrameLists.TakeFirst: the heads of the rings are one sequence (pool, to host, one per channel) instead of fields of several structures.
- MainLoop.RunFirmware: the endless loop is any number of passes; the detach request and the LED updates between the sections are not in it.
- BridgeDrain.Drains: assumes a host that collects once per pass and mailboxes that become free; that either happens is not stated.
- MCan.CanReceive: the payload copy inside HAL_FDCAN_GetRxMessage and HAL_FDCAN_AddMessageToTxFifoQ is not visible and not modelled.
- BitTiming.TimingFields.BtrValue: the rest of `can_enable` (reset, acceptance filter, MCR bits) is register plumbing; bit timing on M_CAN is not modelled.
- Control.UsbControl.HandleData: enabling a channel always succeeds; the padding and timestamp flags of a start request, which only change the length of packets, are not kept.
- DriveTheorems.NeverSteersWhileDriving: speeds and angles are exact; rounding to f32 and f16 is not modelled, and publishing a command three times is one step that takes 57 milliseconds.
- DriveTiming.CtrlCStopsIff: assumes that the process ends one second after the zero drive is sent and is less than two seconds late (`linger`), that handling a drive or steering command takes just its three sleeps of 19 milliseconds, and that the core thread is back at the channel within a bounded time after that (`lag`, for its receive time-outs); panics of the core thread are not part of this model. Nothing is typed in the last second; a move that is typed then drives the rover if there is time for it.
- DriveThreads.Deckard.PublishThrice: of a message only its subject and its one number are kept; velocities, accelerations and torques, which are always NaN, and the flushing of the nodes are not modelled.
- DriveThreads.Deckard.ReadLine: a line is an already recognised command; splitting, lower-casing, help texts and the one-time hint about "q" are not modelled.
- DriveThreads.Deckard.Steer: the blocking receive is tried a bounded number of times and reports when it still waits; that it cannot wait for ever for lack of a sender is DriveTheorems.MoveCompletes.
- Led.LedData.Update: how often one channel is updated is not stated, because `next_update` is shared by all channels.
- Argb.Packed: the three bytes are put next to each other by multiplication and taken out by division, not by shifts; a `u32` holds them.
- FixedSine.SinError: the distance of the polynomial from the true sine is not stated.
- The timestamp of a frame is a field of its own; in the source its place in the payload union depends on the FD flag.
- `list_move`, `list_splice_tail`, `list_splice_init`, `list_replace_init`, `list_is_first`, `list_is_last` and the iteration macros of `list.h`: compositions or plain reads of what is modelled.
- USB descriptors and string tables, DFU, the padding of packets, the start-of-frame timestamp, clocks, pins and board files: constants and I/O.
- `encoder_bus`, register tables, the Cyphal wrappers and the swerve drive controller: thin wrappers, tables, or floating point without an exact model.
