# A verified model of USB/IP

USB/IP carries USB request blocks (URBs) over a byte stream. The client, `vhci_hcd`, is a virtual host
controller; the server is `usbip-host` (`stub`) for real devices or `usbip-vudc` for gadgets. This project
models the parts of the repository that are hard to get right and proves what they promise.

| file | what it holds |
|---|---|
| `Client.dfy`, `ClientTheorems.dfy`, `VhciDevice.dfy` | the client's four lists, what every run keeps whatever the peer sends, and the code that works on them |
| `Protocol.dfy` | client, two FIFO streams and any server, as one transition system |
| `Transmit.dfy`, `Servers.dfy` | the client's transmit loop, entry by entry; what the two servers share |
| `Discipline.dfy` | why the ordering duties of `Protocol` are needed: what goes wrong without them |
| `Vudc.dfy` | the gadget-side server, as the protocol sees it |
| `UrbQueue.dfy`, `VudcTimer.dfy`, `VudcServe.dfy`, `VudcLife.dfy`, `VudcDevice.dfy` | its queue, `v_timer`, which URBs a call returns, whole connections of timer calls and commands, and the code |
| `Stub.dfy`, `StubOrder.dfy` | the device-side server: conservation against any peer, and the order of its replies |
| `System.dfy` | the client with either server, every lock section a step of its own |
| `Overtaking.dfy`, `Progress.dfy`, `StubAccount.dfy` | of that system: exactly when a record can be lost, why no URB gets stuck, and why every command is answered |
| `Bytes.dfy`, `Transfer.dfy` | `transfer()`, the packetising copy loop |
| `Iso.dfy` | isochronous compaction and padding, kernel and libusb servers |
| `Framing.dfy`, `Receiving.dfy` | PDUs on a byte stream, read back in pieces of any size |
| `Ux.dfy` | the `usbip_ux` hand-over to user space |
| `Events.dfy` | the event worker |
| `Controllers.dfy`, `ControllerLimits.dfy`, `ControllerPorts.dfy` | the port counters and the dynamic controllers, where the counters stop being right, and the states of a port |
| `Names.dfy` | the chained hash of USB names |

## How the model is built

A lock-held section of the source is one step; a run is any sequence of steps, and a step that is not
enabled changes nothing. Sequence numbers are natural numbers. Fields called history in the comments are
written by the steps and read by none. The classes hold the fields the source updates; each method is proved
equal to a step of the value-level model, and the theorems are about runs of those steps.

The transmit loops are modelled as they are written: one entry at a time, first one list until it is empty,
then the other, with everything else interleaving. Then the protocol theorems are false of some runs, and
the project says of which:

- `vhci_tx_loop`: `Overtaking.ClientLoopFails` is, with either server, a run in which an URB is submitted and
  unlinked during the second drain, so that the UNLINK overtakes the SUBMIT and a reply finds no record.
  `stub_tx_loop`: `Overtaking.HostLoopFails` is one in which a RET_UNLINK overtakes the RET_SUBMIT of its target.
- A run is calm if, during a second drain, no still unsent URB is unlinked, and (for `stub`) no CMD_UNLINK comes
  too late for a request whose RET_SUBMIT is still unsent. In calm runs every reply finds its record. The
  condition is exact: after every uncalm step the system can go on to lose a record without another call from
  above (`Overtaking.UncalmFails`), so the calm runs are those from no state of which it can
  (`Overtaking.CalmExactly`). Of the runs that end outside second drains they are also those in which
  nothing is overtaken (`System.CalmIsInOrder`). If nothing comes between the sends of a second drain, and so if
  one pass is one step, a run is calm (`System.WholeRoundsCalm`). `vudc` itself needs no condition: it has one
  FIFO of replies.
- In calm runs no URB gets stuck: once nothing is under way every submission has been given back exactly once
  (`Progress.EverySubmissionComesBack`), and the system can always get there (`Progress.EverythingCanComeBack`).

Hypotheses of the client-against-server theorems, taken from the source: usbcore refuses a second unlink of the
same URB and submits an URB only when it is not queued; no allocation fails and no connection breaks. The client
on its own is studied against any peer, with disconnection and cleanup.

Other properties that turned out false, with the condition under which the code meets them:

- `vhci_device_unlink_cleanup` does not give back every unlinked URB: an URB whose unlink is still on
  `unlink_tx` is never given back (`ClientTheorems.UnsentUnlinkStrands`, with the run `ClientTheorems.StrandedRun`);
  a queued URB can still come back exactly if usbcore has not accepted an unlink for it
  (`ClientTheorems.ReturnsIffUnmarked`).
- `v_timer` can return with an URB queued and unlinked (`VudcLife.LeavesOneUnlinked`): exactly if, among the
  steps of the call after its last return, an unlink is received whose target is queued at that moment
  (`VudcTimer.LeavesUnlinkedExactly`).
- A queued URB can be without a pending timer (`VudcLife.UnknownSpeedIsDeaf`): exactly if the timer last fired at an
  unknown speed and nothing has kicked it since (`VudcLife.QueuedIsServed`).
- `stub` does not answer a CMD_UNLINK whose number a later CMD_UNLINK finds in `priv_init`
  (`Stub.RetargetedUnanswered`), and answers every other (`Stub.RepliesExactly`); vhci never sends one that does (`StubAccount.WellAimed`).
- `usbip_pad_iso` never moves packet 0, so for ordered packets it is right on all buffers exactly if packet 0
  is empty or at offset 0 (`Iso.PadExact`).
- `usbip_recv` over `usbip_ux` fails exactly when a write of no bytes was accepted
  (`UxReceive.FailsIffZeroWrite`); the user-space pump never makes one (`UxReceive.PumpDelivers`).
- "Shutdown must come first" in `event_handler` fails exactly when SHUTDOWN was raised after this round's
  check for it (`Events.ShutdownFirstUnlessLate`, with the run `Events.ResetCanComeFirst`).
- An event raised while its own handler runs is cleared without another call (`Events.RaiseLost`); a raise is
  answered exactly if it or a later one of that bit comes from outside that handler (`Events.RaiseHandledExactly`).
- An attach to a port in use makes its controller's counter too large (`Controllers.BusyAttachLeaks`), for ever
  (`ControllerLimits.LostForEver`); a counter is right exactly if no port was released that an attach had
  hit while it was in use (`ControllerLimits.CounterExactly`).
  A deletion leaves at least one controller's ports free exactly if the unsigned `free_ports` does not wrap around
  (`ControllerLimits.RoomExactly`), and without a busy attach it does not (`Controllers.NoBusyNoWrap`).

Where the code and its documentation disagree the model follows the code: `Documentation/usb/usbip_protocol.txt`
says of both directions that the padding between isochronous packets is not transmitted, but a CMD_SUBMIT
carries the whole transfer buffer (`drivers/usb/usbip/vhci_tx.c:95-99`).

## Model

| member | source | states |
|---|---|---|
| `Client.RunInv` | drivers/usb/usbip/vhci_hcd.c:471-505 | every step of every client run, whatever the peer sends, keeps the lists sorted and disjoint, the numbers distinct, the records linked and each submission accounted for |
| `Client.PickupInv` | drivers/usb/usbip/vhci_rx.c:28-69 | taking a submission off `priv_rx`, on any path, keeps that invariant |
| `Client.ApplyInv` | drivers/usb/usbip/vhci_hcd.c:675-766 | so does each of the thirteen kinds of step, dequeue on an open and on a closed connection included |
| `ClientTheorems.EverySubmissionInOnePlace` | drivers/usb/usbip/vhci_rx.c:28-69 | in every run a submission is on `priv_tx`, on `priv_rx`, picked up or given back, in exactly one of them, and is given back at most once |
| `ClientTheorems.ListsAreSorted` | drivers/usb/usbip/vhci_hcd.c:490-504 | `priv_rx ++ priv_tx` and `unlink_rx ++ unlink_tx` are strictly increasing, no number is in both, and an unlink's target is smaller than itself |
| `ClientTheorems.OutcomeHasCause` | drivers/usb/usbip/vhci_hcd.c:784-817 | in every run a submission was taken off the lists by a RET_SUBMIT with its number, with the status a RET_UNLINK reported for its unlink, by an unlink after a disconnection, or by cleanup, and then with -ENODEV and only if it was being unlinked |
| `ClientTheorems.UnlinkAcceptedExactly` | drivers/usb/usbip/vhci_hcd.c:697-766 | in every run an unlink is accepted if and only if the URB is queued and its present submission has no unlink request yet |
| `ClientTheorems.SubmittedAgain` | drivers/usb/usbip/vhci_hcd.c:471-505 | so an URB that is submitted again can be unlinked again |
| `ClientTheorems.CleanupExact` | drivers/usb/usbip/vhci_hcd.c:768-821 | when nothing comes between, cleanup ends with both unlink lists empty; it gives back a submission if and only if it was on `priv_rx` with its unlink on `unlink_rx` |
| `ClientTheorems.CleanupAmidOthers` | drivers/usb/usbip/vhci_hcd.c:784-817 | however cleanup's rounds interleave with the other steps of a closed connection, once `unlink_rx` is empty cleanup has taken, with -ENODEV, exactly the sent submissions whose unlink had been sent, and each is given back or about to be |
| `ClientTheorems.AmidExact` | drivers/usb/usbip/vhci_hcd.c:784-817 | the same for the loop with other threads' sections between its rounds; it terminates with `unlink_rx` empty |
| `ClientTheorems.ClosedNeverGrows` | drivers/usb/usbip/vhci_hcd.c:707-728 | while the connection is closed no step lengthens either unlink list, and each cleanup round shortens `unlink_rx` |
| `ClientTheorems.ReturnsIffUnmarked` | drivers/usb/usbip/vhci_hcd.c:697-728 | after cleanup, some continuation without a new connection gives a queued submission back if and only if no unlink of its URB was accepted |
| `ClientTheorems.UnsentUnlinkStrands` | drivers/usb/usbip/vhci_hcd.c:778-782 | a submission whose unlink was on `unlink_tx` at cleanup is given back in no continuation |
| `ClientTheorems.StrandedRun` | drivers/usb/usbip/vhci_hcd.c:778-782 | a run that reaches such a submission: submit, unlink, disconnect |
| `VhciDevices.VhciDevice.TxUrb` | drivers/usb/usbip/vhci_hcd.c:471-505 | draws the next number and appends the record to `priv_tx` |
| `VhciDevices.VhciDevice.UrbDequeue` | drivers/usb/usbip/vhci_hcd.c:675-766 | unlinks at once on a closed connection, queues an unlink record on an open one, refuses a marked URB |
| `VhciDevices.VhciDevice.SendCmdSubmit` | drivers/usb/usbip/vhci_tx.c:65-135 | drains `priv_tx` into `priv_rx` in order, one CMD_SUBMIT each |
| `VhciDevices.VhciDevice.SendCmdUnlink` | drivers/usb/usbip/vhci_tx.c:155-203 | drains `unlink_tx` into `unlink_rx` in order, one CMD_UNLINK each |
| `VhciDevices.VhciDevice.TxPass` | drivers/usb/usbip/vhci_tx.c:205-226 | one undisturbed round sends every SUBMIT, then every UNLINK, and leaves the state of `Transmit.AfterPass` |
| `VhciDevices.VhciDevice.PickupUrb` | drivers/usb/usbip/vhci_rx.c:28-69 | removes the record with this number from `priv_rx`, or finds none |
| `VhciDevices.VhciDevice.DequeuePendingUnlink` | drivers/usb/usbip/vhci_rx.c:119-142 | removes the unlink record with this number from `unlink_rx`, or finds none |
| `VhciDevices.VhciDevice.RecvRetSubmit` | drivers/usb/usbip/vhci_rx.c:71-117 | gives the URB back if and only if its record was on `priv_rx` |
| `VhciDevices.VhciDevice.RecvRetUnlink` | drivers/usb/usbip/vhci_rx.c:144-188 | consumes the unlink record; gives the URB back with the reported status if its submission was still pending, else not |
| `VhciDevices.VhciDevice.UnlinkCleanup` | drivers/usb/usbip/vhci_hcd.c:768-821 | with any sections of other threads while the locks are dropped, terminates with both unlink lists empty and equals `ClientTheorems.CleanupAmid` |
| `Protocol.RunInv` | drivers/usb/usbip/vhci_hcd.c:629-674 | every disciplined run of client, two streams and any server keeps the invariant that ties each sent number to one place |
| `Protocol.EveryReplyFindsItsRecord` | drivers/usb/usbip/vhci_rx.c:79-89 | in every disciplined run the next reply finds its record: both "cannot find" branches are unreachable |
| `Protocol.RepliedForGood` | drivers/usb/usbip/vhci_hcd.c:637-673 | a submission that was answered by a RET_SUBMIT is never withdrawn later |
| `Protocol.UnlinkedWasWithdrawn` | drivers/usb/usbip/vhci_hcd.c:637-673 | a submission given back by the RET_UNLINK path was withdrawn by the server, and no state of the run has a RET_SUBMIT for it |
| `Protocol.CancelledStatus` | drivers/usb/usbip/vhci_rx.c:161-184 | if the server reports -ECONNRESET for withdrawn requests, an URB given back by the RET_UNLINK path has that status |
| `Transmit.RoundIsPass` | drivers/usb/usbip/vhci_tx.c:205-226 | undisturbed, a round of the entry-by-entry loop sends every SUBMIT and then every UNLINK |
| `Transmit.TxAgrees` | drivers/usb/usbip/vhci_tx.c:47-63 | one turn of the loop is one send of the protocol, in order when no unsent submission has its unlink waiting in the second drain |
| `Transmit.TxUnsafe` | drivers/usb/usbip/vhci_tx.c:137-153 | once an unsent submission has its unlink waiting in the second drain, it stays so until the UNLINK overtakes |
| `Discipline.EarlyReplyFails` | drivers/usb/usbip/stub_tx.c:375-388 | from every state of the invariant where a RET_UNLINK could leave before the waiting RET_SUBMIT of its target, some run loses a record |
| `Discipline.OvertakingUnlinkFails` | drivers/usb/usbip/vhci_tx.c:211-215 | likewise where an UNLINK could leave before its SUBMIT |
| `System.RunSim` | drivers/usb/usbip/vudc_rx.c:74-98 | every calm run of vhci against either server, the transmit loops entry by entry, is a disciplined run of the protocol, and nothing is overtaken in it |
| `System.EveryReplyFindsItsRecord` | drivers/usb/usbip/vhci_rx.c:154-163 | in every calm run, with either server and every lock section interleaving, every reply finds its record |
| `System.CalmIsInOrder` | drivers/usb/usbip/stub_tx.c:366-402 | of the runs that end outside the second drains, the calm ones are exactly those in which no UNLINK leaves before its SUBMIT and no RET_UNLINK before the RET_SUBMIT of its target |
| `System.WholeRoundsCalm` | drivers/usb/usbip/vhci_tx.c:211-215 | if nothing comes between the sends of a second drain the run is calm |
| `System.UnlinkedWasCancelled` | drivers/usb/usbip/vhci_rx.c:161-184 | in a calm run, for an URB given back by the RET_UNLINK path no RET_SUBMIT is queued or under way in any state; with vudc its status is -ECONNRESET |
| `Overtaking.UncalmFails` | drivers/usb/usbip/vhci_tx.c:205-226 | after every calm run and every uncalm step, of either kind and with either server, some continuation without a further submit or unlink loses a record |
| `Overtaking.CalmExactly` | drivers/usb/usbip/vhci_rx.c:79-89 | a run is calm if and only if from every one of its states, whatever follows without the callers, every reply finds its record |
| `Overtaking.ClientLoopFails` | drivers/usb/usbip/vhci_tx.c:211-215 | with either server, a run of the loops that overtakes a SUBMIT and loses a record |
| `Overtaking.HostLoopFails` | drivers/usb/usbip/stub_tx.c:389-393 | with stub, a run, in order on the client's side, in which a RET_UNLINK overtakes and a record is lost |
| `Progress.NothingStuck` | drivers/usb/usbip/vhci_hcd.c:629-674 | in every disciplined run of the protocol, once nothing is under way the client waits for nothing, and every submission was given back exactly once |
| `Progress.EverySubmissionComesBack` | drivers/usb/usbip/vhci_rx.c:91-117 | the same in every calm run of vhci against either server |
| `Progress.EverythingCanComeBack` | drivers/usb/usbip/vhci_rx.c:161-184 | from every state of every calm run some calm continuation, without a further submit or unlink, leads there: no deadlock, no URB lost |
| `UrbQueue.OneReplyEach` | drivers/usb/usbip/vudc_transfer.c:427-443 | each return removes one URB and appends one reply of its own: RET_SUBMIT if and only if it was not unlinked |
| `UrbQueue.StepAgrees` | drivers/usb/usbip/vudc_tx.c:247-287 | the queue's steps are the server steps of module Vudc |
| `VudcTimer.TimerLegal` | drivers/usb/usbip/vudc_transfer.c:314-454 | whatever happens while the lock is dropped, `v_timer` only receives and returns, and returns an URB that was not unlinked only as the first of its endpoint |
| `VudcTimer.TimerCommands` | drivers/usb/usbip/vudc_transfer.c:392-425 | the commands handled during a call are those of the windows it opened, all of them, in order |
| `VudcTimer.TimerSwept` | drivers/usb/usbip/vudc_transfer.c:349-356 | at a known speed, an URB left queued and unlinked was unlinked in a window opened after the last return; with no such window none is left |
| `VudcTimer.LeavesUnlinkedExactly` | drivers/usb/usbip/vudc_transfer.c:349-454 | one is left if and only if, among the steps of the call after the last return, an unlink is received whose target is on the queue at that moment |
| `VudcServe.RoundExactly` | drivers/usb/usbip/vudc_transfer.c:348-446 | one round: the URB is returned if and only if it is unlinked, or its turn has come and there is no such endpoint, the endpoint is halted outside the setup stage, the control request is refused, the endpoint is isochronous or the transfer is not in progress; and what the round leaves of queue, bandwidth, windows, halted and seen endpoints |
| `VudcServe.RoundNews` | drivers/usb/usbip/vudc_transfer.c:369-372 | an URB is new from its arrival to its setup stage |
| `VudcServe.TimerServes` | drivers/usb/usbip/vudc_transfer.c:348-446 | a call with the timer running and bandwidth left gives the first URB of every endpoint its turn, and returns it with a RET_SUBMIT if and only if it completes in a round that is its turn |
| `VudcServe.EveryEndpointIsServed` | drivers/usb/usbip/vudc_transfer.c:314-454 | the same after every sequence of timer calls, commands and sends |
| `VudcServe.TimerSpends` | drivers/usb/usbip/vudc_transfer.c:328-340 | the bandwidth of a call is the new frame's limit, or that of the frame it is still in, less the bytes every transfer moved |
| `VudcLife.CompletionOrder` | drivers/usb/usbip/vudc_transfer.c:342-443 | over every sequence of timer calls, commands between and inside them, and sends, URBs that were not unlinked complete in arrival order on each endpoint |
| `VudcLife.QueuedIsServed` | drivers/usb/usbip/vudc_transfer.c:484-499 | between calls, queued URBs are without a pending timer if and only if the timer last fired at an unknown speed and nothing has kicked it since; a running timer is always pending |
| `VudcLife.UnknownSpeedIsDeaf` | drivers/usb/usbip/vudc_transfer.c:328-333 | a life in which that happens |
| `VudcLife.TimerState` | drivers/usb/usbip/vudc_transfer.c:466-499 | in every life the timer is stopped if and only if it was never started and no call of `v_timer` ended with an empty queue or at an unknown speed, however often it was kicked; otherwise it runs when it is pending and is idle when not |
| `VudcLife.LeavesOneUnlinked` | drivers/usb/usbip/vudc_transfer.c:392-425 | a life in which `v_timer` returns with one URB queued and unlinked |
| `VudcDevice.Vudc.StartTimer` | drivers/usb/usbip/vudc_transfer.c:466-482 | a stopped timer takes the frame limit; one that is not running is kicked |
| `VudcDevice.Vudc.RecvCmdSubmit` | drivers/usb/usbip/vudc_rx.c:167-170 | the whole new state: the URB queued and new, the timer kicked |
| `VudcDevice.Vudc.RecvCmdUnlink` | drivers/usb/usbip/vudc_rx.c:74-98 | the whole new state: the first URB with the target number is marked, renumbered and the timer kicked, or a RET_UNLINK with status 0 is queued and it is not |
| `VudcDevice.Vudc.ProcessUrb` | drivers/usb/usbip/vudc_transfer.c:373-425 | the whole new state after working on an eligible URB, its status and the bandwidth left |
| `VudcDevice.Vudc.VisitUrb` | drivers/usb/usbip/vudc_transfer.c:350-425 | the whole new state after one round, and whether its URB is returned |
| `VudcDevice.Vudc.GiveBack` | drivers/usb/usbip/vudc_transfer.c:427-443 | the whole new state: one URB off the queue, one reply, its endpoint's seen and setup marks cleared |
| `VudcDevice.Vudc.VTimer` | drivers/usb/usbip/vudc_transfer.c:314-454 | terminates whatever happens while the lock is dropped, and equals `VudcTimer.Timer`, of which the theorems speak |
| `VudcDevice.Vudc.SendRet` | drivers/usb/usbip/vudc_tx.c:187-221 | sends the replies in queue order and empties the queue |
| `Stub.RunBalanced` | drivers/usb/usbip/stub_tx.c:65-114 | in every interleaving, for every number, what came in is in one of the lists, sent, or matched by an unlink, as often as it came |
| `Stub.RepliesExactly` | drivers/usb/usbip/stub_rx.c:216-290 | against any peer, once drained: each CMD_SUBMIT has had one RET_SUBMIT if and only if no received CMD_UNLINK found it in `priv_init`, each CMD_UNLINK one RET_UNLINK with its own number if and only if no later CMD_UNLINK found its number there, and there are never more replies than commands |
| `Stub.RetargetedUnanswered` | drivers/usb/usbip/stub_rx.c:222-248 | a run in which one did, and the first got none |
| `StubAccount.WellAimed` | drivers/usb/usbip/vhci_tx.c:172-179 | in every run of vhci against stub, under every interleaving, no CMD_UNLINK names an earlier one |
| `StubAccount.EveryCommandAnswered` | drivers/usb/usbip/stub_tx.c:159-364 | in every such run, once the server is drained, each CMD_UNLINK has had exactly one RET_UNLINK with its own number, and each CMD_SUBMIT one RET_SUBMIT, or none if an unlink matched it |
| `Stub.NeverRetargeted` | drivers/usb/usbip/stub_rx.c:216-290 | an unlink that names a submission never replaces an earlier unlink |
| `Stub.ListsDisjoint` | drivers/usb/usbip/stub_tx.c:141-157 | `priv_init`, `priv_tx` and `priv_free` never share a submission |
| `Stub.FreedExactly` | drivers/usb/usbip/stub_tx.c:281-364 | in every run `priv_free` and `unlink_free` hold exactly what was sent since their drain last ended, which empties them |
| `StubDevices.StubDevice.PrivAlloc` | drivers/usb/usbip/stub_rx.c:309-338 | appends the request to `priv_init` |
| `StubDevices.StubDevice.RecvCmdUnlink` | drivers/usb/usbip/stub_rx.c:216-290 | searches `priv_init` only: the match takes the unlink's number, otherwise a RET_UNLINK with status 0 is queued |
| `StubDevices.StubDevice.CompleteUrb` | drivers/usb/usbip/stub_tx.c:65-114 | moves the request to `priv_tx`, or queues its RET_UNLINK if it was unlinking, or leaves it on -ENOENT |
| `StubDevices.StubDevice.TxPass` | drivers/usb/usbip/stub_tx.c:366-402 | one undisturbed round sends all RET_SUBMITs in order, then all RET_UNLINKs in order, and empties the lists |
| `Transfer.FinishIsPackets` | drivers/usb/usbip/vudc_transfer.c:222-245 | copying whole packets first and then the remainder is, for every callback, the same as sending one packet at a time |
| `Transfer.BytesConserved` | drivers/usb/usbip/vudc_transfer.c:216-245 | the bytes moved are the packets' bytes in order, taken from consecutive unread slices; the URB grows by as much as the requests together, and none exceeds its buffer |
| `Transfer.TurnAccounts` | drivers/usb/usbip/vudc_transfer.c:233-245 | the same for one iteration from any status |
| `Transfer.OnlyTheLastIsShort` | drivers/usb/usbip/vudc_transfer.c:207-232 | every packet but the last is full, and a short one ends the URB |
| `Transfer.HeadContinues` | drivers/usb/usbip/vudc_transfer.c:282-304 | a request not given back stays at the head and the next packet continues it |
| `Transfer.HowItEnds` | drivers/usb/usbip/vudc_transfer.c:255-296 | the final status, exactly: -EOVERFLOW if the last packet is short, the URB an input and bytes of the request are left; 0 if it is short otherwise, or fills the buffer of an URB that is not an output with URB_ZERO_PACKET; else in progress, with the queue empty |
| `Transfer.RequestOverflows` | drivers/usb/usbip/vudc_transfer.c:247-272 | a request ends with -EOVERFLOW exactly if it takes an output's last packet, short, while bytes of the URB are left |
| `Transfer.RequestEnds` | drivers/usb/usbip/vudc_transfer.c:255-281 | a packet's request is given back if and only if the packet is short, or the request is used up and is not an input with `zero` set |
| `Transfer.EmptyExactly` | drivers/usb/usbip/vudc_transfer.c:208-222 | a packet is empty if and only if its request is used up before it or the URB is full |
| `Transfer.EmptyWasAsked` | drivers/usb/usbip/vudc_transfer.c:208-216 | after the first packet, an empty one is sent only if its writer asked for it or an empty request came up |
| `Transfer.AskedIsSent` | drivers/usb/usbip/vudc_transfer.c:273-289 | an empty packet that the gadget or the host asked for is sent, as the last one, if there is room or a request for it |
| `Transfer.NextHead` | drivers/usb/usbip/vudc_transfer.c:282-304 | for every callback, a packet is for the head of the queue: the same request again, or the head of the queue the callback returned |
| `Transfer.QueueFilled` | drivers/usb/usbip/vudc_transfer.c:216-245 | in both directions, with a callback that leaves the queue alone, the bytes moved are the pieces of the queued requests in queue order, each the next bytes of its request |
| `Transfer.QueueInTurn` | drivers/usb/usbip/vudc_transfer.c:282-304 | no request is begun before those ahead of it are done, and one given back undone is the last |
| `Transfer.InQueueOrder` | drivers/usb/usbip/vudc_transfer.c:204-245 | the bytes of an input are then the beginning of the queued requests' unread bytes |
| `TransferDevice.Endpoint.Copy` | drivers/usb/usbip/vudc_transfer.c:233-240 | the memcpy in either direction |
| `TransferDevice.Endpoint.OnePass` | drivers/usb/usbip/vudc_transfer.c:204-304 | one iteration; if it leaves the URB in progress the rescan flag is set, so the walk never goes past the head |
| `TransferDevice.Endpoint.Run` | drivers/usb/usbip/vudc_transfer.c:195-312 | terminates whatever the callback does, returns the growth of `actual_length`, and equals the packet-by-packet transfer |
| `Iso.PadExact` | drivers/usb/usbip/usbip_common.c:685-715 | for ordered packets the padding restores every packet on every buffer if and only if packet 0 is empty or at offset 0 |
| `Iso.PadRecovers` | drivers/usb/usbip/usbip_common.c:685-715 | then every packet stands at its offset, early returns included |
| `Iso.ScatterPlaces` | drivers/usb/usbip/usbip_common.c:705-714 | moving in place from the last packet to the second overwrites nothing still needed |
| `Iso.TightOffsets` | drivers/usb/usbip/usbip_common.c:698-703 | if the packets fill the buffer, each already stands at its offset |
| `Iso.RoundTrip` | drivers/usb/usbip/stub_tx.c:214-245 | gathered by the server and padded by the client, each packet of the client's buffer equals the server's |
| `Iso.PadIso` | drivers/usb/usbip/usbip_common.c:685-715 | the loop on the buffer itself equals `Iso.Pad` |
| `Iso.StubGather` | drivers/usb/usbip/stub_tx.c:214-245 | the iovecs are the packets without padding; a wrong total ends the connection |
| `Iso.RunningLayout` | tools/usb/usbip/libusb/stub/stub_common.c:672-693 | the running offsets are ordered, inside the buffer and start at 0 |
| `Iso.RunningTight` | drivers/usb/usbip/usbip_common.c:698-703 | with no padding each running offset is the sum of the actual lengths before it |
| `Iso.LibusbRoundTrip` | tools/usb/usbip/libusb/stub/stub_tx.c:222-240 | the client recovers every packet of the libusb server |
| `Iso.LibusbGather` | tools/usb/usbip/libusb/stub/stub_tx.c:222-240 | the server gathers from exactly the offsets its descriptors announce |
| `Iso.FixupActualLength` | tools/usb/usbip/libusb/stub/stub_tx.c:156-164 | the total of the packets' actual lengths |
| `Wire.WordRoundTrip` | drivers/usb/usbip/usbip_common.c:453-469 | a word survives the byte order |
| `Wire.HeaderRoundTrip` | drivers/usb/usbip/usbip_common.c:453-556 | each of the four 48-byte headers is decoded as it was encoded |
| `Wire.HeaderLayout` | Documentation/usb/usbip_protocol.txt:398-520 | every field of every header stands at its documented offset, big-endian |
| `Wire.DescLayout` | drivers/usb/usbip/usbip_common.h:235-240 | so do the fields of a packet descriptor |
| `Wire.DescsRoundTrip` | drivers/usb/usbip/usbip_common.c:559-613 | so is every list of packet descriptors |
| `Framing.Tweak` | drivers/usb/usbip/usbip_common.c:384-388 | only URB_NO_TRANSFER_DMA_MAP is cleared |
| `Framing.MessageRoundTrip` | drivers/usb/usbip/usbip_common.c:617-675 | a PDU of the size its receiver expects is taken off the stream whole, if its packets come to the right total, and refused otherwise |
| `Framing.StreamRoundTrip` | drivers/usb/usbip/vhci_tx.c:88-119 | in both directions, for every sequence of PDUs on whose endpoints and URBs both sides agree, decoding consumes exactly the bytes sent and yields the messages put on the wire |
| `Framing.StreamConveys` | drivers/usb/usbip/vhci_tx.c:155-203 | and PDU by PDU the receiver learns what was sent: the request with all its fields, the number, device and target of a CMD_UNLINK, all fields, descriptors and bytes of a RET_SUBMIT, the number and status of a RET_UNLINK |
| `Framing.StreamRefused` | drivers/usb/usbip/vudc_rx.c:180-234 | after any such sequence, a PDU that is refused leaves what came before it taken and ends the loop as an error |
| `Framing.ReplySentExactly` | drivers/usb/usbip/stub_tx.c:214-245 | a server sends every reply but an isochronous input whose packets do not come to `actual_length` |
| `Framing.SentRecovered` | drivers/usb/usbip/vhci_tx.c:155-203 | the same for one PDU of any kind, whatever follows it |
| `Framing.RequestRecovered` | drivers/usb/usbip/usbip_common.c:391-413 | the server's URB has every field of the client's, but for the cleared flag and the contents of an input buffer |
| `Framing.RequestAcceptedIff` | drivers/usb/usbip/usbip_common.c:649-671 | the server takes an isochronous request if and only if its packets' actual lengths are cleared |
| `Framing.ReplyRecovered` | drivers/usb/usbip/usbip_common.c:719-765 | every reply, input or output, isochronous or not: all header fields, the descriptors, and the bytes read or each packet without its padding |
| `Framing.ReplyRefusedExactly` | drivers/usb/usbip/usbip_common.c:719-765 | the client drops the connection over a RET_SUBMIT if and only if its number is not pending, it brings more than the URB's buffer holds, its packets are fewer than none, the stream ends too early, or the packets do not come to `actual_length` |
| `Framing.RequestRefusedExactly` | drivers/usb/usbip/usbip_common.c:617-675 | the server over a CMD_SUBMIT if and only if it has no such endpoint, the packets are fewer than none, the stream ends too early, or the packets' results are not cleared |
| `Framing.OtherHeaders` | drivers/usb/usbip/vudc_rx.c:180-234 | the server takes every CMD_UNLINK, the client every RET_UNLINK, as it stands; each refuses the other's |
| `Framing.WrongSide` | drivers/usb/usbip/vhci_rx.c:203-260 | neither side takes a submission or a reply that only the other may receive |
| `Framing.ForgetsExactly` | drivers/usb/usbip/vhci_rx.c:28-69 | the client forgets an URB with its RET_SUBMIT or with the RET_UNLINK of its unlink, and nothing else |
| `Framing.ForgetsUnlinks` | drivers/usb/usbip/vhci_rx.c:119-142 | and an unlink with the RET_UNLINK of its number, and with nothing else |
| `Framing.PacketsRecovered` | drivers/usb/usbip/vudc_tx.c:130-149 | gathered, framed, decoded, checked and padded, each packet stands in the client's buffer as in the server's |
| `Receiving.Connection.Recv` | drivers/usb/usbip/usbip_common.c:326-380 | for every pattern of short reads, all the bytes asked for, or none if the stream ends before |
| `Receiving.Connection.RecvIso` | drivers/usb/usbip/usbip_common.c:617-675 | the descriptors, if they come to the expected total |
| `Receiving.Connection.RecvXbuff` | drivers/usb/usbip/usbip_common.c:719-765 | the transfer buffer, if there is one |
| `Receiving.Connection.RxPdu` | drivers/usb/usbip/vhci_rx.c:203-260 | one PDU, the same for every pattern of short reads |
| `Receiving.Connection.RxLoop` | drivers/usb/usbip/vudc_rx.c:180-234 | the receive loop decodes the stream as `Framing.DecodeAll` does |
| `UxSend.SendIsFifo` | drivers/usb/usbip/usbip_ux.c:161-215 | what user space has read is the beginning of the concatenated iovecs, all of them when `sendmsg` returns its size; request and response are never both set |
| `UxSend.Drain` | drivers/usb/usbip/usbip_ux.c:108-159 | whatever size each read has, and with empty iovecs, the hand-over always finishes |
| `UxReceive.ReceiveIsFifo` | drivers/usb/usbip/usbip_ux.c:217-327 | the k-th finished `usbip_recv` call got, from the written stream in order, exactly as many bytes as it was called for; what the call in progress has and still wants add up to its size; request and response are never both set |
| `UxReceive.FailsIffZeroWrite` | drivers/usb/usbip/usbip_common.c:345-362 | `usbip_recv` fails if and only if a write of no bytes was accepted |
| `UxReceive.EmptyWriteFails` | drivers/usb/usbip/usbip_ux.c:238-260 | one empty write is enough |
| `UxReceive.PumpDelivers` | tools/usb/usbip/libsrc/usbip_ux.c:73-97 | with the user-space pump, every byte from the socket is delivered in order and no call fails |
| `UxDevice.Ux.Sendvec` | drivers/usb/usbip/usbip_ux.c:161-182 | publishes the iovec and sets the request |
| `UxDevice.Ux.Read` | drivers/usb/usbip/usbip_ux.c:108-159 | hands out the next bytes and answers once the iovec is used up |
| `UxDevice.Ux.Recvvec` | drivers/usb/usbip/usbip_ux.c:269-290 | publishes the space wanted and sets the request |
| `UxDevice.Ux.Write` | drivers/usb/usbip/usbip_ux.c:217-267 | takes what fits and answers at once |
| `Events.NoEventLost` | drivers/usb/usbip/usbip_event.c:76-114 | a pending bit other than BYE always has the device listed, an adder on its way, or the worker before that bit's check; no device is listed twice |
| `Events.AtRest` | drivers/usb/usbip/usbip_event.c:161-189 | with the worker idle, nothing queued and no adder on its way, only BYE can be pending |
| `Events.PendingExactly` | drivers/usb/usbip/usbip_event.c:36-52 | in every run a bit is pending on a device if and only if it was raised and its handler has not returned since; so BYE stays |
| `Events.RefusedExactly` | drivers/usb/usbip/usbip_event.c:161-170 | the raises made, and those on their way, are exactly the calls made while BYE was not pending; every other call is refused |
| `Events.WakesForWork` | drivers/usb/usbip/usbip_event.c:171-188 | the worker starts only for a device listed since it last started, and till then the work stays queued |
| `Events.ShutdownFirstUnlessLate` | drivers/usb/usbip/usbip_event.c:87-94 | a later handler runs with SHUTDOWN pending if and only if some step raised SHUTDOWN on the device while the worker, in this round, was past its check for it |
| `Events.ResetCanComeFirst` | drivers/usb/usbip/usbip_event.c:87-100 | a run in which it does |
| `Events.RaiseHandledExactly` | drivers/usb/usbip/usbip_event.c:76-114 | in a run at rest, a handler starts after a raise if and only if that raise or a later one of the bit comes from outside the bit's own handler |
| `Events.RaiseLost` | drivers/usb/usbip/usbip_event.c:91-94 | a run in which a raise from inside is cleared |
| `EventDevice.EventQueue.SetEvent` | drivers/usb/usbip/usbip_event.c:36-43 | adds the bits |
| `EventDevice.EventQueue.UnsetEvent` | drivers/usb/usbip/usbip_event.c:45-52 | clears the handled bit |
| `EventDevice.EventQueue.GetEvent` | drivers/usb/usbip/usbip_event.c:54-72 | takes the first device off the list |
| `EventDevice.EventQueue.Insert` | drivers/usb/usbip/usbip_event.c:171-188 | lists a device that is not listed yet and queues the work |
| `EventDevice.EventQueue.EventHandler` | drivers/usb/usbip/usbip_event.c:76-114 | undisturbed, it empties the list and clears every bit but BYE of the listed devices, and touches no other device |
| `Controllers.RunInv` | drivers/usb/usbip/vhci_hcd.c:1272-1387 | every run keeps the counters' invariant |
| `Controllers.CountersCover` | drivers/usb/usbip/vhci_hcd.c:1272-1287 | the global counter is the sum of the controllers', and each of those at least the number of its ports in use |
| `Controllers.CountersExact` | drivers/usb/usbip/vhci_sysfs.c:297-350 | without an attach to a port in use they are equal |
| `ControllerLimits.CounterExactly` | drivers/usb/usbip/vhci_hcd.c:1331-1344 | a controller's counter is the number of its ports in use if and only if no step released a port that an earlier attach had hit while it was in use, as it still was |
| `Controllers.DeletionIsSafe` | drivers/usb/usbip/vhci_hcd.c:1346-1363 | deletion never removes controller 0, nor a controller with a port in use |
| `Controllers.NeverBelowInit` | drivers/usb/usbip/vhci_hcd.c:1376 | in every run there are at least `vhci_init_controllers` controllers |
| `Controllers.ControllersExactly` | drivers/usb/usbip/vhci_hcd.c:1346-1387 | in every run a step removes a controller if and only if it is a deletion, there are more than `vhci_init_controllers`, two controllers' worth of ports is free in unsigned arithmetic, and it is the highest one above 0 that counts no port; a step adds one if and only if it attaches to a valid port of it |
| `ControllerPorts.UnusableExactly` | drivers/usb/usbip/vhci_hcd.c:898-915 | in every run a port is unusable if and only if it was made so and, its controller still there, has not been reset since |
| `ControllerPorts.AttachExactly` | drivers/usb/usbip/vhci_sysfs.c:297-350 | a port is taken by a step if and only if the step attaches to it with a socket that can be linked while it is free |
| `Controllers.DeletionLeavesRoom` | drivers/usb/usbip/vhci_hcd.c:1365-1387 | a deletion leaves at least one controller's worth of ports unheld if `free_ports` does not wrap around, for any number of ports per controller |
| `ControllerLimits.RoomExactly` | drivers/usb/usbip/vhci_hcd.c:1376-1382 | for every number of controllers and every total, all reachable states with those counters leave room if and only if the subtraction does not wrap around |
| `Controllers.NoBusyNoWrap` | drivers/usb/usbip/vhci_hcd.c:1376-1379 | and it does not, without an attach to a port in use |
| `Controllers.BusyAttachLeaks` | drivers/usb/usbip/vhci_sysfs.c:308-316 | attach, busy attach and reset leave the counters one too high |
| `ControllerLimits.LostForEver` | drivers/usb/usbip/vhci_hcd.c:1331-1363 | a counter that is too high stays so in every continuation, and its controller is never deleted |
| `ControllerLimits.WrapLosesRoom` | drivers/usb/usbip/vhci_hcd.c:1376-1382 | for every wrapped total there is a run that has it and then deletes a controller it should have kept |
| `ControllerTable.Table.GetDevice` | drivers/usb/usbip/vhci_hcd.c:1272-1329 | registers a missing controller and counts the port |
| `ControllerTable.Table.PutDevice` | drivers/usb/usbip/vhci_hcd.c:1331-1344 | uncounts the port when its own count reaches zero |
| `ControllerTable.Table.StoreAttach` | drivers/usb/usbip/vhci_sysfs.c:263-352 | succeeds exactly for a valid, free port and a socket that can be linked; otherwise the count is put back |
| `ControllerTable.Table.ReleasePort` | drivers/usb/usbip/vhci_hcd.c:881-915 | reset and unusable |
| `ControllerTable.Table.TryDelete` | drivers/usb/usbip/vhci_hcd.c:1346-1387 | deletes the last unused controller when the guard allows |
| `Names.HashNum` | tools/usb/usbip/libsrc/names.c:89-97 | the loop computes the fold and lands in 0..15 |
| `Names.LookupIsFirst` | tools/usb/usbip/libsrc/names.c:106-162 | after every sequence of insertions a lookup returns the name of the first successful insertion of that key, and nothing otherwise |
| `Names.DuplicatesRefused` | tools/usb/usbip/libsrc/names.c:211-312 | an insertion is refused if and only if the key is there or memory is short |
| `Names.NameIndex.Name` | tools/usb/usbip/libsrc/names.c:106-162 | the lookup along the chain |
| `Names.NameIndex.New` | tools/usb/usbip/libsrc/names.c:211-312 | the insertion at the head of the chain |

## Left out

- Wrap-around of 32-bit sequence numbers, and 32-bit overflow of lengths and totals.
- Allocation failures and broken connections inside the client-against-server runs: they drop URBs by design.
- Memory lifetime and accesses outside the locks, such as reads of `urb->hcpriv` without `priv_lock`.
- Root-hub requests, setup-packet tweaks, flag masking, debug output: flat case tables.
- OP_* negotiation, command-line tools, daemons, sysfs parsing, udev, module and thread start-up.
- Per-frame bandwidth bounds of `vudc`: `transfer()` ignores its limit, so there is none to prove.
- Reference counting, interruption and error codes of `usbip_ux`: the model covers uninterrupted runs.
- The libusb server's endpoint table, transfer clean-up and status translation.
- Effects of the shutdown, reset and unusable handlers on a device's own state, beyond the port counters.
- VudcDevice.Vudc.VTimer: what happens while `udc->lock` is dropped (results of the gadget's callbacks, the bytes `transfer()` moved, commands received meanwhile) is a parameter, so that the two halves of `v_timer` and `transfer()` meet only through it.
- Iso.StubGather: requires that offsets and lengths stay inside the buffer, which the source takes from the host controller without a check.
- Iso.PadIso: requires that offsets and lengths stay inside the buffer, which the source does not check for offsets that arrive from the network.
- ClientTheorems.CleanupExact: the case without interleaving; `ClientTheorems.CleanupAmidOthers` and `ClientTheorems.AmidExact` state the general one.
- EventDevice.EventQueue.EventHandler: a single undisturbed pass; interleaving with adders is the subject of module Events.
- Names.NameIndex.New: one bucket array per instance stands for any of the five tables; `names_free` is not modelled.
- UxDevice.Ux.Read: the error fields `tx_error` and `rx_error` are not modelled.
