# Transport machinery of a DualSense relay, modelled and proved

The relay stands between a DualSense controller and a console. It owns two Bluetooth adapters over HCI user
channels, where the kernel does neither reassembly nor flow control, and a USB gadget. This project models the
six state machines that carry that burden and proves what holds over every run of them.

| file | what it models |
|---|---|
| `Bytes.dfy` | words and bytes as they lie on the wire |
| `PacketCursor.dfy` | the bounds-checked cursor over one packet |
| `L2cap.dfy` | recombination of L2CAP PDUs from ACL fragments, per link, under any interleaving |
| `Framing.dfy` | the one place outgoing frames are built, and the round trip with recombination |
| `AclFlow.dfy` | ACL credits, their write-off, and the controller they are about |
| `Reports.dfy` | input reports, their cut-down image, the one-slot hold |
| `Relay.dfy` | the input path to the console: credits, hold, flush, format switch, resets |
| `RelayCredits.dfy` | the relay's runs as runs of its credits against the controller |
| `EndToEnd.dfy` | that path seen from the far end of the air |
| `Traces.dfy` | runs of any state machine, and what happened in them since something else did |
| `CommandQueue.dfy` | HCI commands under the controller's flow control, with watchdog and reset |
| `Handlers.dfy` | the two handlers: links, paging, retries, handover, and what each radio was last told |
| `Calling.dfy` | whether a handler without a link has a call out, from its commands and what became of them |
| `Histories.dfy` | every field of a handler and every command it sends, tied to the events of the run, in the numbers of the wire |
| `SendGapBuckets.dfy` | holes in the stream, counted in buckets, against the whole trace |
| `Usb.dfy` | GET_REPORT over ep0 and the interrupt IN endpoint |
| `InputFeed.dfy` | the shared page: sequence lock and event ring, one load or store at a time |
| `FeedPage.dfy` | the same operations in place, when nothing else touches the page |
| `PressLog.dfy` | the viewer's log of presses |

Each component is written twice. Once as values: a datatype for its state, a function per operation, `Step` for
one event and `Run` for any sequence of them; the theorems are about `Run`. And once in place, in the shape the
source has: a class whose methods change its fields, each proved to do to its `View()` exactly what the function
says. Fields named as history in the comments (what arrived, what was written, what the controller really holds)
are there to state the claims and steer nothing.

Times are integers in milliseconds and are passed in. Whether a socket took a write is a parameter, or an oracle
over the number of the write. Handles are non-zero, as the code assumes when it uses 0 for "none". The input feed
is sequentially consistent with one writer for the life of the page; what relaxed atomics could add is not covered.

Where the model found the code and what is said about it to differ, the code is what is modelled:

- The comment at src/bluetooth/PacketContents.h:21-23 says L2CAP fragments are not reassembled; `handle_acl` does
  reassemble them.
- The comment above `opaque_frame` (src/bluetooth/HidRelay.cpp:458-463) describes a 0xd4 marker and a clock; the
  test is bit 0 of the flags byte (src/dualsense/Transforms.h:73-77).
- The reserve at src/bluetooth/AclFlowControl.h:155-157 is kept "always", but a write-off answers yes before the
  budget is looked at, so a pool of one buffer, or a depth below one, still sends (`RoomMeansBudget`,
  `PoolOfOneStillSends`).
- "The newest report is sent or held" fails for a report that does not fit the slot when there is no room; then the
  report and whatever was held before it are both lost (`NewestIsSentOrHeld` says exactly when).
- "If the pad has not spoken since ... this is the freshest thing we have" (src/bluetooth/HidRelay.cpp:456-457) is
  not so across a second link: `reset_channels` leaves the hold alone, so a held report goes out on the new channel
  after the pad has said something newer to the closed one (`StaleReportGoesOut`, `HoldOutlivesItsChannel`). A
  delivery is the newest of all the pad's state reports exactly when none came on a closed channel since it arrived
  (`NewestUnlessMissedOnAClosedChannel`).
- "It is put back ... on success and on failure alike" (src/bluetooth/HciCommands.cpp:384-389) is not so when the
  pad calls while we page it. The flag that tells an incoming call's failure from our page's is one bit and any
  failure takes it: our page's failure can leave the console radio deaf, and the call's own failure can then switch
  the scan on under the next page (`CrossingCallsAreMistaken`, from `StartUpPagesForThePad`). A failure is taken for
  the call's exactly when a call was accepted since the last Connection Complete
  (`FailureIsTakenForTheLatestAcceptance`).
- The scan suppression of the console radio ends under a page that is still out when the console's link is lost or
  the handover begins; both switch the scan on without asking (`LostConsoleLinkOverridesSuppression`,
  `HandoverOverridesSuppression`; `DeafOnlyWhileSuppressed` has the exact condition).
- "Holds a link" for the pad radio's duty cycle means the link it relays on, not any open one
  (`AnOpenLinkIsNotEnough`).
- A handover before start-up loses its long page timeout to start-up's short one (`EarlyHandoverLosesItsTimeout`;
  `LongPagesOnlyDuringHandover` has the exact condition).
- Calling the peer can stop for good. A Create Connection whose write fails is dropped (src/bluetooth/HciCommands.cpp:79-83)
  and nothing makes another (`LostCallIsNotRepeated`); so is one that a Command Status refuses, but for the first
  "connection exists" (`RefusedCallIsNotRepeated`); and the pad's side answers only two failures with another page.
  In every run these three are the only ways (`CalledUnlessLostRefusedOrGivenUp`).
- The watchdog does not cover an allowance of nought (`ZeroAllowanceStopsForGood`).
- A slow reader of the event ring that the writer has lapped hands on a newer event under an older one's index
  (`LappedReaderDeliversTheNewerEvent`).

## Model

| member | source | states |
|---|---|---|
| `L2cap.EveryInterleavingIsRecombined` | src/bluetooth/L2cap.cpp:56-133 | for every plan of PDUs per open link, every cut of each into non-empty fragments whose first holds the header, and every interleaving of the links' packets: each link's PDUs are routed in order, once, byte for byte, nothing else is routed, nothing is left waiting |
| `L2cap.LinksAreIndependent` | src/bluetooth/L2cap.cpp:56-133 | whatever the other links send or do, one link ends as if they had been silent: a start discards only its own link's partial |
| `L2cap.RoutedExactlyWhenComplete` | src/bluetooth/L2cap.cpp:56-133 | for every run, well-formed or not: each link routes exactly the PDUs that the bytes it has brought since its starts complete, in order, read off the packets' own bytes, and keeps exactly what is still short |
| `L2cap.StrangersAreClosedOnce` | src/bluetooth/L2cap.cpp:76-85 | in every run a link is asked to close if and only if it speaks, is not open, and has not been asked since it last went |
| `L2cap.StepKeepsLinksInv` | src/bluetooth/L2cap.cpp:94-133 | every stored partial has 4 <= size < declared size and belongs to an open link; every PDU routed is exactly its declared size |
| `L2cap.RunKeepsLinksInv` | src/bluetooth/L2cap.cpp:56-133 | the same over every run of packets, connections and disconnections |
| `L2cap.RecombineIsGood` | src/bluetooth/L2cap.cpp:94-133 | one fragment turns a well-formed partial into a well-formed partial, a complete PDU, or nothing |
| `L2cap.OnePdu` | src/bluetooth/L2cap.cpp:94-133 | one legally cut PDU, from any state of its link, is routed once with exactly its bytes and leaves nothing |
| `L2cap.OneLink` | src/bluetooth/L2cap.cpp:94-133 | any sequence of legally cut PDUs on one link comes out in order |
| `L2cap.RoutedOnlyOnOpenLinks` | src/bluetooth/L2cap.cpp:73-85 | packets for a link that is not open are never routed |
| `L2cap.ImplausibleLengthUnreachable` | src/bluetooth/L2cap.cpp:117-127 | the implausible-length branch can never be taken: a 16-bit length always fits under the limit |
| `L2cap.RunNeverRoutesMalformed` | src/bluetooth/L2cap.cpp:135-164 | over every run, routing never meets a PDU it would refuse, and the payload it hands on is everything behind the header |
| `L2cap.RouteIsExactly` | src/bluetooth/L2cap.cpp:135-164 | what becomes of any PDU, in its own bytes |
| `L2cap.Recombiner.HandleAcl` | src/bluetooth/L2cap.cpp:56-133 | in place: refines the step function, unknown links and header-only packets included |
| `L2cap.Recombiner.Continue` | src/bluetooth/L2cap.cpp:94-107 | in place: a continuation grows its link's partial or completes it, and is dropped when there is none |
| `L2cap.Recombiner.Start` | src/bluetooth/L2cap.cpp:109-133 | in place: a start replaces its link's partial, or is routed at once |
| `L2cap.Recombiner.LinkClosed` | src/bluetooth/HciEvents.cpp:625-628 | in place: a lost link takes its partial with it |
| `PacketCursor.PacketContents.Get` | src/bluetooth/PacketContents.h:46-62 | all the bytes asked for, next in order, or none - and then the cursor has not moved |
| `PacketCursor.PacketContents.Remaining` | src/bluetooth/PacketContents.h:32-34 | what is left behind the cursor |
| `Framing.FramingRoundTrip` | src/bluetooth/L2cap.cpp:439-480 | the PDU in any frame that passes the size guard, re-cut in any legal way and recombined, arrives on the same link with the same channel and the payload prefix ++ data |
| `Framing.FrameIsStart` | src/bluetooth/L2cap.cpp:439-480 | a frame is an ACL start, flag 2, on its link and both its length fields are exact: no 16-bit cast truncates |
| `Framing.FrameFits` | src/bluetooth/L2cap.cpp:439-450 | a frame is built if and only if its payload fits 4096 bytes less nine of headers |
| `Framing.PduReadsBack` | src/bluetooth/L2cap.cpp:135-164 | routing reads back the channel and payload a PDU was built from |
| `Framing.WholeFrameArrives` | src/bluetooth/L2cap.cpp:439-480 | a frame received uncut is routed as it was built |
| `Framing.HandleSurvives` | src/dualsense/Transforms.h:31-35 | the receiver sees the sender's handle exactly when it is a 12-bit one |
| `Framing.FrameWriter.SendFrame` | src/bluetooth/L2cap.cpp:439-480 | in place: the write buffer holds the frame up to the returned offset; a frame that would not fit leaves it untouched |
| `AclFlow.CreditDriftIsBounded` | src/bluetooth/AclFlowControl.h:25-89 | against a controller that completes only what it holds, whatever becomes of pool and depth meanwhile: the running total is the sum over the map, never exceeds the true count, and falls short of it by at most what was written off; exact while nothing was |
| `AclFlow.WriteOffsAreSpaced` | src/bluetooth/AclFlowControl.h:77-89 | no write-off within the threshold of a counted completion, an earlier write-off or the start |
| `AclFlow.OnlyUngatedFramesExceedTheBudget` | src/bluetooth/AclFlowControl.h:57-120 | whenever the pool is known to be two or more, the total exceeds the budget by at most what it exceeded it by when the budget was set and the frames sent since without asking |
| `AclFlow.ReserveHoldsOnceWithinBudget` | src/bluetooth/AclFlowControl.h:148-158 | from the first moment the total is within the budget, until pool or depth change, it exceeds it by at most the frames sent without asking |
| `AclFlow.RoomMeansBudget` | src/bluetooth/AclFlowControl.h:148-158 | "room" means a place within the budget if and only if the pool is at least two and the depth at least one; then a send leaves the total at most the pool less one |
| `AclFlow.RoomIsExactly` | src/bluetooth/AclFlowControl.h:57-120 | in the fields alone: yes for an unknown pool, on a stall - which forgets all and restarts the timer - or with the total below both the depth and the pool less one; otherwise no, and nothing changes |
| `AclFlow.RefusalsAreReal` | src/bluetooth/AclFlowControl.h:90-119 | in every run a send is refused only while the controller really holds as many packets as the depth or all but one of its pool |
| `AclFlow.PoolOfOneStillSends` | src/bluetooth/AclFlowControl.h:77-89 | the reserve of a pool of one is given away by a write-off |
| `AclFlow.CompleteAllExact` | src/bluetooth/HciEvents.cpp:745-762 | a whole completion event leaves each link at max(0, old - sum of its entries) and the total equal to the sum |
| `AclFlow.EntryOrderIsIrrelevant` | src/bluetooth/HciEvents.cpp:745-762 | any order of the event's pairs gives the same state |
| `AclFlow.CompleteAllTimer` | src/bluetooth/AclFlowControl.h:35-43 | the stall timer restarts exactly when a pair names a link that has been counted |
| `AclFlow.EntriesFrom` | src/bluetooth/HciEvents.cpp:753-761 | the pairs read are those both announced and present, each from its own offset |
| `AclFlow.SentKeepsTotal` | src/bluetooth/AclFlowControl.h:29-32 | a send keeps total = sum |
| `AclFlow.CompletedKeepsTotal` | src/bluetooth/AclFlowControl.h:35-43 | a completion keeps total = sum, clamped counts included |
| `AclFlow.DisconnectedKeepsTotal` | src/bluetooth/AclFlowControl.h:46-51 | losing a link keeps total = sum |
| `AclFlow.RunKeepsInvariants` | src/bluetooth/AclFlowControl.h:25-120 | drift, spacing and reserve hold after every event of every run, setting pool and depth included |
| `AclFlow.AclFlowControl.OnSent` | src/bluetooth/AclFlowControl.h:29-32 | in place: one more on that link and in the total; total = sum is kept |
| `AclFlow.AclFlowControl.OnCompleted` | src/bluetooth/AclFlowControl.h:35-43 | in place: the link's count falls to no less than 0, the total by as much, and the stall timer restarts; an uncounted link changes nothing |
| `AclFlow.AclFlowControl.OnDisconnect` | src/bluetooth/AclFlowControl.h:46-51 | in place: the link's count leaves the map and the total |
| `AclFlow.AclFlowControl.InFlightTotal` | src/bluetooth/AclFlowControl.h:53-55 | the constant-time answer is the sum over the map |
| `AclFlow.AclFlowControl.HasRoom` | src/bluetooth/AclFlowControl.h:57-120 | in place: the answer in the fields alone and, on a write-off, the forgotten credits and the restarted timer |
| `AclFlow.AclFlowControl.OnCompletedPackets` | src/bluetooth/HciEvents.cpp:753-761 | in place: the decoding loop refines completing all entries |
| `Reports.CutDownKeepsControls` | src/dualsense/Transforms.h:102-116 | a host that reads the cut-down report finds every control the full one has, and the low six bits of its counter |
| `Reports.HeldFrame.Store` | src/bluetooth/HeldFrame.h:33-41 | in place: newest wins; an oversized report leaves nothing held |
| `Reports.HeldFrame.Clear` | src/bluetooth/HeldFrame.h:43-45 | in place: nothing is held any more |
| `Relay.ConsoleSeesFreshReportsInOrder` | src/bluetooth/HidRelay.cpp:381-437 | over every run, deliveries are a strictly increasing subsequence of the state reports; when each went out no newer one had come on an open channel; each carries the report or its cut-down image in the frame for the console's channel |
| `Relay.ConsoleIsToldWhatThePadSaid` | src/bluetooth/HidRelay.cpp:441-454 | in every run each delivery is the pad's report unchanged or eleven bytes, 0xa1 0x01 and nine more, that read back as the pad's controls with the counter's low six bits |
| `Relay.ArrivalGoesOutExactlyWhenThereIsRoom` | src/bluetooth/HidRelay.cpp:406-437 | a report goes out at once if and only if the channel is open, it is not a 79-byte frame with the flag bit clear, and there is room, in the fields alone |
| `Relay.FieldsFollowTheRun` | src/bluetooth/HidRelay.cpp:150-159 | in every run full reports are on if and only if the console has asked for calibration or firmware since the last reset, and channel and link are those opened last and not reset or lost since |
| `Relay.EveryReportIsHeard` | src/bluetooth/HidRelay.cpp:464-471 | in every run the reports heard are those the pad sent, and the opaque ones counted are exactly those that are |
| `Relay.NewestUnlessMissedOnAClosedChannel` | src/bluetooth/HidRelay.cpp:473-497 | over every run, a delivery is the newest of all the pad's state reports if and only if none came on a closed channel since it arrived |
| `Relay.HoldOutlivesItsChannel` | src/bluetooth/HciEvents.cpp:138-155 | from every state with a link and a held report long enough to cut down: a second link, a newer report, a channel and a completion that leaves room deliver the old report |
| `Relay.StaleReportGoesOut` | src/bluetooth/HciEvents.cpp:670-678 | such a run from the start, for any three state reports |
| `Relay.NewestIsAlwaysSentOrHeld` | src/bluetooth/HidRelay.cpp:411-436 | between any two events of any run, of the state reports since the channel and its link last changed the newest is the last delivery or the hold, if it fits the slot |
| `Relay.ConsoleFormatOnlyMovesForward` | src/bluetooth/HidRelay.cpp:150-159 | no cut-down report follows a full one between two channel resets |
| `Relay.ArrivalsAreConserved` | src/bluetooth/HidRelay.cpp:406-437 | arrivals = opaque + backpressure + (sent - flushed), and every flush spends a report held back |
| `Relay.NewestIsSentOrHeld` | src/bluetooth/HidRelay.cpp:411-436 | after a state report on an open channel, it is sent or held if and only if there was room or it fits the slot; otherwise nothing is held any more |
| `Relay.CompletionLeavesNoIdleCredit` | src/bluetooth/HciEvents.cpp:745-765 | after a completion event nothing is held or there is no room |
| `Relay.StepKeepsInv` | src/bluetooth/HidRelay.cpp:381-497 | every event keeps credits, conservation, history, what is held and what is newest |
| `Relay.RunKeepsInv` | src/bluetooth/HidRelay.cpp:381-497 | so does every run |
| `Relay.ConsoleLink.RelayPadInput` | src/bluetooth/HidRelay.cpp:381-437 | in place: closed channel, opaque, no room (held) and sent are told apart as in the step function, the buffers and credits with them |
| `Relay.ConsoleLink.SendToConsole` | src/bluetooth/HidRelay.cpp:441-454 | in place: the full or cut-down payload goes out in its frame and costs a credit when the socket takes it |
| `Relay.ConsoleLink.FlushHeldReport` | src/bluetooth/HidRelay.cpp:473-497 | in place: the held report goes out when there is room and a channel, and is discarded when the channel is gone |
| `Relay.ConsoleLink.HandleNumCompletedPackets` | src/bluetooth/HciEvents.cpp:745-765 | in place: an empty event does nothing, any other completes and then flushes |
| `Relay.ConsoleLink.HandleFeatureRequest` | src/bluetooth/HidRelay.cpp:144-159 | in place: asking for calibration or firmware switches to full reports |
| `Relay.ConsoleLink.DoResetChannels` | src/bluetooth/HciEvents.cpp:670-678 | in place: the channel closes and the next report is cut down again |
| `Relay.ConsoleLink.HandleConnected` | src/bluetooth/HciEvents.cpp:138-155 | in place: a second link starts the channels over |
| `Relay.ConsoleLink.HandleDisconnected` | src/bluetooth/HciEvents.cpp:625-657 | in place: credits are written off, and the hold and the channels go with the relayed link only |
| `RelayCredits.RunCredits` | src/bluetooth/HidRelay.cpp:381-497 | over any run the relay's credits are those of its frames, completions and lost links |
| `RelayCredits.RelayNeverOverestimates` | src/bluetooth/HidRelay.cpp:381-497 | in every run of the relay against a controller that completes only what it holds, the relay's total is at most what the controller holds and misses at most what was written off |
| `EndToEnd.ConsoleReceivesWhatWasHandedOver` | src/bluetooth/HidRelay.cpp:381-454 | for every relay run, every cutting and interleaving on the air and any traffic on other channels: the far end's interrupt channel receives exactly the payloads handed over, in order, each saying, byte for byte or read back from the cut-down form, what the pad said in a later report than the one before |
| `EndToEnd.ChannelReceives` | src/bluetooth/L2cap.cpp:56-164 | a channel receives the payloads of its own link's PDUs for it, whatever else the links carry |
| `EndToEnd.OtherChannelsAreIgnored` | src/bluetooth/L2cap.cpp:135-164 | PDUs for other channels make no difference to one channel's payloads |
| `CommandQueue.CommandsLeaveInOrderWithinGrants` | src/bluetooth/HciCommandQueue.h:53-107 | in every run what was pushed is, in order, what was taken off (written, or lost to a failed write) and what is queued, and writes since the last grant never exceed it |
| `CommandQueue.NothingLeavesWhileHeld` | src/bluetooth/HciCommands.cpp:187-227 | between hold and release nothing leaves the queue, for an answer or for the watchdog |
| `CommandQueue.WhyNothingMoves` | src/bluetooth/HciCommandQueue.h:57-107 | between events a non-empty queue waits for a reset that has not ended or is out of credits; out of credits means an awaited answer or a last allowance of 0; and the wait counts from the last write |
| `CommandQueue.HeldExactlyWhileResetting` | src/bluetooth/HciCommands.cpp:187-227 | in every run the queue is held if and only if a reset that began has neither completed nor failed |
| `CommandQueue.EndOfResetMovesTheQueue` | src/bluetooth/HciCommands.cpp:215-226 | after any run a completed reset with an allowance, or a failed one with credits left, moves a queue that has something in it |
| `CommandQueue.WatchdogMovesExactlyTheOverdue` | src/bluetooth/HciCommands.cpp:101-111 | a tick moves a stopped queue if and only if an answer is awaited and overdue |
| `CommandQueue.ZeroAllowanceStopsForGood` | src/bluetooth/HciCommandQueue.h:96-107 | after an allowance of 0 nothing leaves until another answer, watchdog or not |
| `CommandQueue.PumpKeepsInv` | src/bluetooth/HciCommands.cpp:72-86 | the pump ends with nothing that could go out, and moves a queue that can move |
| `CommandQueue.StepKeepsInv` | src/bluetooth/HciCommands.cpp:53-111 | every event keeps order, grant arithmetic, what is awaited since when, and the reason for standing still |
| `CommandQueue.RunKeepsInv` | src/bluetooth/HciCommands.cpp:53-111 | so does every run |
| `CommandQueue.HciCommandQueue.PushBack` | src/bluetooth/HciCommandQueue.h:53 | in place: behind everything queued |
| `CommandQueue.HciCommandQueue.Next` | src/bluetooth/HciCommandQueue.h:57-62 | the front command exactly when one may go |
| `CommandQueue.HciCommandQueue.OnWritten` | src/bluetooth/HciCommandQueue.h:65-74 | in place: the front command leaves, costs a credit if there is one, and an answer is awaited from now |
| `CommandQueue.HciCommandQueue.OnDropped` | src/bluetooth/HciCommandQueue.h:77-81 | in place: the front command leaves and costs nothing |
| `CommandQueue.HciCommandQueue.OnAnswered` | src/bluetooth/HciCommandQueue.h:85-89 | in place: the allowance replaces the credits, nothing is awaited |
| `CommandQueue.HciCommandQueue.SetHold` | src/bluetooth/HciCommandQueue.h:92-94 | in place: hold and release change nothing else |
| `CommandQueue.HciCommandQueue.GiveUp` | src/bluetooth/HciCommandQueue.h:103-107 | in place: one credit, nothing awaited |
| `CommandQueue.CommandPort.PumpCommands` | src/bluetooth/HciCommands.cpp:72-86 | in place: the loop refines the pump, its measure the queue |
| `CommandQueue.CommandPort.DoSendCmd` | src/bluetooth/HciCommands.cpp:53-70 | in place: refines push-then-pump, so the invariants of runs hold of it |
| `CommandQueue.CommandPort.HandleAnswer` | src/bluetooth/HciEvents.cpp:361-367 | in place: the allowance is taken over and the queue pumped |
| `CommandQueue.CommandPort.WatchCommands` | src/bluetooth/HciCommands.cpp:101-111 | in place: gives up and pumps exactly when overdue |
| `CommandQueue.CommandPort.BeginReset` | src/bluetooth/HciCommands.cpp:187-191 | in place: the queue is shut and nothing else changes |
| `CommandQueue.CommandPort.EndReset` | src/bluetooth/HciCommands.cpp:192-226 | in place: with the allowance of the Command Complete, or without one when none came |
| `Handlers.PageScanDutyFollowsTheLink` | src/bluetooth/HciEvents.cpp:138-174 | in every run of both handlers, with any other commands in their queues, once the last command for its duty cycle has been written: the pad radio was last told the normal one if and only if it holds its link, the console radio only on the play link, and there for certain once the console has sent output |
| `Handlers.DeafOnlyWhileSuppressed` | src/bluetooth/HciCommands.cpp:386-395 | in every interleaving, start-up in either order included: the console radio was last asked, and once that command has been written last told, to be deaf if and only if it is suppressed and, since the last page silenced it, has neither lost its link nor begun to call the console |
| `Handlers.LongPagesOnlyDuringHandover` | src/bluetooth/Handover.cpp:152-180 | in every run, once the last command for it has been written, the console radio was last told the long page timeout if and only if the calling after a handover lasts and start-up has not come after the handover |
| `Handlers.FailureIsTakenForTheLatestAcceptance` | src/bluetooth/HciEvents.cpp:106-124 | over every run that leaves the console radio suppressed: the failure of an attempt leaves it so if and only if a call was accepted since the last Connection Complete; so it is dealt with rightly, for a call or a page, if and only if it is what the latest acceptance suggests |
| `Handlers.CrossingCallsAreMistaken` | src/bluetooth/HciEvents.cpp:114-124 | wherever a page for the pad is out: the pad's call is accepted, our page misses and leaves the console deaf, the next page goes out, and the call's failure switches the scan on under it |
| `Handlers.StartUpPagesForThePad` | src/bluetooth/BluetoothHandler.cpp:167-196 | with a borrowed address, start-up of both handlers, in either order and at any times, leads to such a state |
| `Handlers.LostConsoleLinkOverridesSuppression` | src/bluetooth/HciEvents.cpp:645-651 | losing the link the console's handler holds switches the scan on under a suppression that stands |
| `Handlers.SuppressedWithALink` | src/bluetooth/HciEvents.cpp:118-155 | a run from the start that leads there: the console's link comes up while the pad is being paged |
| `Handlers.EarlyHandoverLosesItsTimeout` | src/bluetooth/Handover.cpp:169-172 | start-up after a handover sets the short page timeout while the calling lasts |
| `Handlers.HandoverOverridesSuppression` | src/bluetooth/Handover.cpp:163-167 | the handover switches the scan on under a suppression that stands |
| `Handlers.AnOpenLinkIsNotEnough` | src/bluetooth/HciEvents.cpp:625-657 | when the newer of two pad links goes, the eager duty cycle returns although the older is open |
| `Handlers.StepKeepsInv` | src/bluetooth/HciEvents.cpp:101-741 | every event, and every other command, keeps what each radio was asked for in step with what its handler knows |
| `Handlers.RunKeepsInv` | src/bluetooth/HciEvents.cpp:101-741 | so does every run |
| `Handlers.InitialIsGood` | src/bluetooth/BluetoothHandler.cpp:167-216 | two new handlers, whatever their addresses, are a state to start from |
| `Handlers.StartUpFits` | src/bluetooth/BluetoothHandler.cpp:167-196 | start-up of either side, before or after the other, leaves settings that agree with what the handler knows |
| `Handlers.HeardMeansTold` | src/bluetooth/HciCommands.cpp:72-86 | setting by setting: once the last command that sets it has been written, whatever else failed, the radio was last told what was last asked |
| `Handlers.BluetoothHandler.SendConnectionRequest` | src/bluetooth/HciCommands.cpp:370-412 | in place, on both handlers or on one alone: pages a known address, and silences the console radio when the address is the one it has borrowed |
| `Handlers.BluetoothHandler.HandleConnectionComplete` | src/bluetooth/HciEvents.cpp:101-189 | in place, on both handlers or on one alone: failed incoming calls, the end of the suppression, failures and new links as in the source |
| `Handlers.BluetoothHandler.EndSuppressionOf` | src/bluetooth/HciEvents.cpp:118-124 | in place, on the other handler: the suppression ends unless the failure was an incoming call's |
| `Handlers.BluetoothHandler.HandleConnectionFailure` | src/bluetooth/HciEvents.cpp:194-250 | in place: whose failures are retried, and on the console's side how |
| `Handlers.BluetoothHandler.MissConsole` | src/bluetooth/HciEvents.cpp:216-245 | in place: counted, retried at once inside the handover's window, which ends in time, and otherwise after 3, 10 or 20 seconds |
| `Handlers.BluetoothHandler.ScheduleReconnect` | src/bluetooth/HciEvents.cpp:680-684 | in place: one timer at a time |
| `Handlers.BluetoothHandler.AdoptLink` | src/bluetooth/HciEvents.cpp:138-176 | in place: the fields a new link changes |
| `Handlers.BluetoothHandler.LinkUp` | src/bluetooth/HciEvents.cpp:138-189 | in place: with its commands, in order |
| `Handlers.BluetoothHandler.HandleDisconnectComplete` | src/bluetooth/HciEvents.cpp:618-668 | in place: an unrelayed link only leaves the set; the relayed one restores the eager scan, on the console side the scan itself too, and starts the timer |
| `Handlers.BluetoothHandler.HandleConnRequest` | src/bluetooth/HciEvents.cpp:695-741 | in place: only the expected peer, by all but one byte of its address |
| `Handlers.BluetoothHandler.ReconnectTimer` | src/bluetooth/HciEvents.cpp:685-692 | in place, on both handlers or on one alone: a link that came up meanwhile ends it |
| `Handlers.BluetoothHandler.CallConsole` | src/bluetooth/Handover.cpp:152-173 | in place: reachable, long page timeout, page - unless there is a link already or this is the wrong side; the other handler is left alone |
| `Handlers.BluetoothHandler.EndHandoverPaging` | src/bluetooth/Handover.cpp:175-180 | in place: the short page timeout comes back once |
| `Handlers.BluetoothHandler.NoteConsoleOutput` | src/bluetooth/HidRelay.cpp:167-174 | in place: the first output report on the play link eases the radio off |
| `Handlers.BluetoothHandler.ApplyConsoleSideIdentity` | src/bluetooth/HciCommands.cpp:299-342 | in place: asks before it switches the scan on |
| `Handlers.BluetoothHandler.HandleCmdStatus` | src/bluetooth/HciEvents.cpp:361-416 | in place: the allowance first; then a refused Create Connection sweeps stale links away and starts the timer, once and without a link, and anything else changes nothing |
| `Handlers.BluetoothHandler.HandleModeChange` | src/bluetooth/HciEvents.cpp:517-535 | in place: only the relayed link's mode is kept |
| `Handlers.BluetoothHandler.Begin` | src/bluetooth/BluetoothHandler.cpp:167-196 | in place, on both handlers or on one alone: the start of handle() behind the reset |
| `Calling.CalledUnlessLostRefusedOrGivenUp` | src/bluetooth/HciEvents.cpp:194-250 | in every run, on either side: a handler that knows whom to call and has neither link nor timer has a call out - its last Create Connection queued or written, with no Connection Complete or refusal since - if and only if that was not lost to a failed write, refused, or, on the pad's side, given up on |
| `Calling.LostCallIsNotRepeated` | src/bluetooth/HciCommands.cpp:79-83 | a socket that takes no write: after the handover no call is out, none is queued, and no timer runs |
| `Calling.RefusedCallIsNotRepeated` | src/bluetooth/HciEvents.cpp:389-390 | at the end of any run, a refusal other than "connection exists" ends the call and schedules nothing |
| `Calling.IdleStaysIdle` | src/bluetooth/HciEvents.cpp:680-693 | from then on, until a handover, a link that comes or goes or a late answer, nothing is called |
| `Calling.HandoverCalls` | src/bluetooth/Handover.cpp:152-173 | start-up and a handover lead to such a handler |
| `Histories.LinksFollowTheRun` | src/bluetooth/HciEvents.cpp:138-157 | in every run, on either side, the relayed link is the one that came up last and has not gone, and open are those that came up and have not |
| `Histories.PlayLinkFollowsTheRun` | src/bluetooth/HciEvents.cpp:138-153 | in every run the console is on its play link since a second link came up beside one, until that goes; its output counts from then |
| `Histories.SuppressionFollowsTheRun` | src/bluetooth/HciEvents.cpp:114-124 | in every run the console's radio is suppressed from a page for the borrowed address to the end of an attempt not taken for a call's |
| `Histories.HandoverFollowsTheRun` | src/bluetooth/Handover.cpp:152-180 | in every run the calling without a pause counts from the last call of a handover until a link comes up or a page misses thirty seconds on, and whom the handler calls and accepts is whom that handover named |
| `Histories.OwnLink` | src/bluetooth/HciEvents.cpp:138-176 | every field of a link under every event |
| `Histories.OwnWindow` | src/bluetooth/HciEvents.cpp:217-223 | the handover's window under every event |
| `Histories.OwnRetry` | src/bluetooth/HciEvents.cpp:209-248 | failures, timer and sweep under every event: 0, 3, 10 or 20 seconds, by how many pages in a row have missed |
| `Histories.CallsAreAnswered` | src/bluetooth/HciEvents.cpp:695-741 | every call is answered with one command: accepted if five bytes of the address are those of the side's peer, otherwise refused |
| `Histories.LinkIsAuthenticatedUnlessTheyCalled` | src/bluetooth/HciEvents.cpp:175-189 | in every run a link that comes up is authenticated by this side if and only if it has accepted no call since the last Connection Complete |
| `Histories.WireValues` | src/bluetooth/BluetoothHandlerInternal.h:30-46 | the commands as bytes: scan, duty cycles, page timeouts, calls and their answers |
| `Histories.StartUpOnTheWire` | src/bluetooth/BluetoothHandler.cpp:174-191 | the commands every handler starts with, in order, as bytes |
| `Histories.IdentityOnTheWire` | src/bluetooth/HciCommands.cpp:299-342 | the console side's name as bytes, with the scan only when it is not suppressed |
| `SendGapBuckets.BucketsRefineTheTrace` | src/bluetooth/SendGaps.h:32-55 | window, count and maximum are those of the last closed bucket of the greedy partition of the whole trace |
| `SendGapBuckets.NoGapIsLost` | src/bluetooth/SendGaps.h:32-55 | published counts and the open bucket's add up to all gaps over the threshold |
| `SendGapBuckets.CutsAppend` | src/bluetooth/SendGaps.h:42-54 | one more report closes the open bucket or leaves the partition as it was |
| `SendGapBuckets.NextCutIsFirst` | src/bluetooth/SendGaps.h:42-48 | a bucket ends at the first report a full bucket after its start |
| `SendGapBuckets.SendGaps.NoteSent` | src/bluetooth/SendGaps.h:32-55 | in place: refines the step whose runs equal the partition of the trace |
| `Usb.EveryReplyIsThePadsOwn` | src/usb/USBHandler.cpp:924-950 | over every run of requests, answers, timeouts and detaches: no request is answered twice; a reply is min(wLength, 64) bytes, byte by byte the pad's newest answer under that id with zeros behind it, or all zeros when there was none; and only reports 0x05, 0x09 and 0x20 are answered without asking |
| `Usb.AnsweredAtOnceOnlyWhenKnown` | src/usb/USBHandler.cpp:928-941 | after any run a request is answered at once if and only if it is for report 0x05, 0x09 or 0x20 and the pad has told it; any other is passed on and pending |
| `Usb.AnswerEndsTheWait` | src/usb/USBHandler.cpp:989-1000 | after any run an answer under the awaited id is given at once, byte by byte, and any other leaves the wait |
| `Usb.EveryRequestIsAccountedFor` | src/usb/USBHandler.cpp:492-506 | over every run, requests = replies + the pending one + those detached or replaced, and a request has exactly one reply if and only if it is neither of the last two |
| `Usb.StepKeepsInv` | src/usb/USBHandler.cpp:924-1001 | every event keeps the cache equal to the pad's newest answers and the numbering of requests |
| `Usb.RunKeepsInv` | src/usb/USBHandler.cpp:924-1001 | so does every run |
| `Usb.KeptAnswersTheSame` | src/usb/USBHandler.cpp:989-992 | cutting a stored answer at 64 bytes loses nothing a reply could carry |
| `Usb.TimeoutLeavesNothingOpen` | src/usb/USBHandler.cpp:683-698 | after any run a timeout leaves nothing pending, so every request so far is answered or was dropped |
| `Usb.GetReportAnswer` | src/usb/HidGadget.h:218-235 | byte by byte: the report as far as it goes, zeros behind it, cut at wLength and at 64 |
| `Usb.ReportsOverUsbAreConserved` | src/usb/USBHandler.cpp:522-574 | over every run each report offered is in exactly one counter or in flight, and the buffer in flight holds what was submitted |
| `Usb.BufferIsLeftAloneWhileBusy` | src/usb/USBHandler.cpp:532-546 | from submission to completion nothing writes the kernel's buffer |
| `Usb.OfferedOnce` | src/usb/USBHandler.cpp:522-547 | counter by counter and byte by byte, what one offer does |
| `Usb.DoneOnce` | src/usb/USBHandler.cpp:549-574 | counter by counter, what one completion does, the four errors of a stopped endpoint by number |
| `Usb.InputEndpoint.DoSendInput` | src/usb/USBHandler.cpp:522-547 | in place: disabled, busy, refused and submitted are counted apart, and only an idle buffer is written |
| `Usb.InputEndpoint.OnInputDone` | src/usb/USBHandler.cpp:549-574 | in place: the buffer is free again and the result counted by kind |
| `Usb.USBHandler.BeginGetReport` | src/usb/USBHandler.cpp:924-942 | in place: a cached fixed property is answered at once, everything else becomes the pending request |
| `Usb.USBHandler.FinishGetReport` | src/usb/USBHandler.cpp:944-950 | in place: the pending request is answered and gone |
| `Usb.USBHandler.OnFeatureReport` | src/usb/USBHandler.cpp:984-1001 | in place: the answer is remembered, and given when it is the one awaited |
| `Usb.USBHandler.OnTimeout` | src/usb/USBHandler.cpp:683-698 | in place: the pad's last answer under that id, or zeros |
| `Usb.USBHandler.DisableGadget` | src/usb/USBHandler.cpp:492-506 | in place: nothing is pending and the endpoint is off |
| `InputFeed.SnapshotsAreWholeAndOrdered` | src/input/InputFeed.h:347-364 | in every interleaving of single loads and stores, a snapshot is the whole block as one finished publish left it; cell by cell that is the body, time, link fields and next count it was given, or the link fields and the rest as before; its body is the report its own count names; and snapshots never go back |
| `InputFeed.PublishesWhatItIsAsked` | src/input/InputFeed.h:255-275 | in every interleaving the publishes are those asked for, with their own arguments, in order, none missed and none doubled |
| `InputFeed.GivesUpOnlyOnABusyPage` | src/input/InputFeed.h:351-363 | in every interleaving, latest gives up only after sixteen attempts, each of which found the block locked or saw a publish begin while it copied |
| `InputFeed.QuietPageAnswersAtOnce` | src/input/InputFeed.h:351-363 | a call during which nothing is published returns the newest publish at its first attempt |
| `InputFeed.DrainDeliversWhatWasWritten` | src/input/InputFeed.h:370-384 | in every interleaving events come in order, at most once, exactly as written when last read from before the writer starts on event i + 256, and delivered + lost = cursor |
| `InputFeed.DrainCallIsExact` | src/input/InputFeed.h:370-384 | one whole drain beside a running writer delivers exactly the newest min(256, head - cursor) events before the head it loaded, each as written when read in time, counts the rest as lost and leaves the cursor at that head |
| `InputFeed.LappedReaderDeliversTheNewerEvent` | src/input/InputFeed.h:281-285 | past that point the promise ends: the newer event is delivered |
| `InputFeed.EventsAreExactlyTheChanges` | src/input/InputFeed.h:277-285 | the events are the published bodies' masks without repetitions, no more and no fewer |
| `InputFeed.EventsCarryTheirTimes` | src/input/InputFeed.h:277-285 | in every interleaving each event has the time its own publish was given |
| `InputFeed.ChangesAreStutterFree` | src/input/InputFeed.h:277-280 | no mask follows itself, the first is not "nothing held", the last is the last report's |
| `InputFeed.MaskTellsWhatIsHeld` | src/input/InputFeed.h:98-109 | two reports have the same mask if and only if the same things are held |
| `InputFeed.StepKeepsInv` | src/input/InputFeed.h:255-384 | every load and store keeps lock, snapshots, ring, cursor and press log consistent |
| `InputFeed.RunKeepsInv` | src/input/InputFeed.h:255-384 | so does every interleaving |
| `InputFeed.FreshIsGood` | src/input/InputFeed.h:241-244 | a newly mapped page is a state to start from |
| `FeedPage.SharedPage.PublishLink` | src/input/InputFeed.h:255-263 | in place: cell by cell, the link block and nothing else |
| `FeedPage.SharedPage.Publish` | src/input/InputFeed.h:265-286 | in place: cell by cell, body, time, one more report and link block; and an event with its time exactly when the buttons changed |
| `FeedPage.SharedPage.PushEvent` | src/input/InputFeed.h:283-285 | in place: the ring keeps the newest 256 |
| `FeedPage.Latest` | src/input/InputFeed.h:347-364 | whatever each attempt loads from a page that may change: the first that settles is the answer, and there is none only on an invalid page or when all sixteen fail |
| `FeedPage.SharedPage.Drain` | src/input/InputFeed.h:370-384 | the newest min(256, head - cursor) events as written, cursor 0 after a restart, the rest lost |
| `PressLog.LogOfACaughtUpViewerIsRight` | src/input/InputView.cpp:361-379 | in every interleaving, a viewer that has caught up and read its last event in time has a log that replays to what the pad's latest report holds, whatever it lost before |
| `PressLog.LogReplaysToTheTruth` | src/input/InputView.cpp:361-379 | for any events from any mask, replaying the lines gives what the last event holds, so the next event after a loss resynchronises |
| `PressLog.OneLinePerChange` | src/input/InputView.cpp:366-377 | a line for each button that changed, with its direction, and none for others |
| `PressLog.LinesInTableOrder` | src/input/InputView.cpp:366-377 | lines come in table order, no button twice |
| `PressLog.TableIsComplete` | src/input/InputView.cpp:84-104 | the table has every button once |
| `PressLog.TableOrder` | src/input/InputView.cpp:84-104 | the order of the table, bit by bit |
| `PressLog.HeldDeterminesMask` | src/input/InputView.cpp:84-104 | two 19-bit masks that hold the same table entries are equal |
| `PressLog.MaskIsBitwise` | src/input/InputFeed.h:98-109 | bit by bit, the mask is the d-pad unfolded into its arrows and the report's own button bits in place |
| `PressLog.LogTellsReportsApart` | src/input/InputFeed.h:98-109 | the log tells two reports apart exactly when their masks differ |
| `PressLog.Panel.NoteEvent` | src/input/InputView.cpp:361-379 | in place: the lines when logging, and the newest 64 presses |
| `PressLog.RowIsTheNewest` | src/input/InputView.cpp:368-371 | dropping the oldest press one at a time leaves the newest 64 |

## Left out

- Relaxed atomics and a restart of the writer in the middle of a read: `InputFeed` covers sequentially consistent executions of one writer.
- Widths of sequence numbers, heads, statistics and in-flight counts: unbounded here, 32 or 64 bits in the source; the 16-bit fields on the wire and the 8-bit command allowance are modelled as such.
- One clock reading serves each event handler; the source reads the clock again inside some of them.
- Relay.LegalEvent: a report that is about to be sent is not empty and, if it is to be cut down, has its first 13 bytes, because the source reads them unchecked.
- Relay.CompletionLeavesNoIdleCredit: is about events with a body, as an empty one returns before the flush.
- Handlers.LegalEvent: handlers start once and read events only after that, as their coroutine does; a link that is up has a handle other than 0, which the code uses for "none"; the reconnect timer fires when it is due or later; commands that come from outside the model (key replies, polls, disconnects, encryption) may enter a queue at any time but set none of scan mode, duty cycle and page timeout, as in the source.
- Runs of a single handler: the methods work without a counterpart, the theorems over runs are about two.
- The reset command itself, which is written past the queue, and the packets dropped while its answer is awaited.
- The meaning of the fields of the link block: thirteen cells, copied one by one.
- `decode` (src/input/InputFeed.h:125-144), which copies sticks, triggers and battery out of a body and unpacks the two twelve-bit touch coordinates; the mask it also takes from `pack_buttons` is modelled.
- The path of pad input to USB (`make_usb_report`, the PS press) and of console output to the pad beyond its effect on the radio.
- The USB OUT endpoint, SET_REPORT, and every other ep0 request; `pad_` is taken to be attached when a request is passed on.
- Pairing, authentication, link keys, SDP, L2CAP signalling and the order in which channels open.
- What a channel does with a payload after `route_l2cap_pdu` has chosen it.
- The wall-clock time in a line of the log, which is that of its event.
- Sockets, coroutines, FunctionFS, AIO and the viewer's rendering: events and results of calls in the model.
- Checksums of reports, and constant tables such as descriptors.
