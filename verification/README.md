# Verification of zmk_usb_bridge

A Dafny model of the firmware's four state machines, with proofs of what they guarantee over every run.
`dafny verify dfyconfig.toml` checks everything.

The firmware takes HID reports from one Bluetooth keyboard and hands them to a USB host. Each C file with
history-dependent behaviour has a module here. A module first defines the file as a pure transition
system: a state, the operations that may interleave, and a step function with the branches and constants
of the C code. Calls into Zephyr (GATT, USB, timers, settings) are parameters that carry an arbitrary
return code, limited only by the callback discipline that each `Legal` or `Enabled` predicate states.
The properties are then proved for all runs. At the end of the module a class updates its fields step by
step, as the C file does, and each method is proved to make exactly the specified step.

| file | what it covers |
|---|---|
| `Basics.dfy` | bytes, machine integers, status codes, roles |
| `MouseCodec.dfy` | mouse payload codecs and saturating addition |
| `HogInput.dfy` | notification queue, mouse coalescing, deferred event, worker thread |
| `UsbBridge.dfy` | report submission, sticky release request, three-report flush |
| `Bridge.dfy` | the input gate on top of both |
| `HogDiscovery.dfy`, `HogDiscoveryProofs.dfy`, `HogReadiness.dfy`, `HogFailure.dfy`, `HogRoles.dfy`, `HogWalk.dfy`, `HogClient.dfy` | HID service discovery: the machine, table and call bounds, readiness, failure, roles and subscriptions by their bytes, the walk over all reports, the code |
| `MouseFeature.dfy` | the mouse wheel resolution read from the peer, set by the host and written back |
| `Reconnect.dfy` | reconnect scheduler with its two timers |
| `EventQueue.dfy`, `ScanControl.dfy`, `BleManager.dfy`, `StateMachine.dfy` | event queue, scan control, command execution, top-level state machine |
| `Connection.dfy` | connection references, the bond-mismatch streak, and what is told to others |
| `Attempt.dfy` | one attempt across connection and discovery: notes of failure, and what the client tells the bridge |
| `InputGate.dfy` | who opens and shuts the input gate: attempt, state machine and bridge together |
| `CandidateCache.dfy`, `PairingFilter.dfy` | scan candidate cache and the in-place allowlist tokenizer |

## Where the code does not do what one would expect

These are properties of the code, each with its exact condition.

- A connection attempt whose creation fails at once (`main/src/ble_connection.c:279-284`) is reported as a
  failure before the scanner notes it as started (`main/src/ble_scan.c:229-241`); noting it cancels the
  retry that the failure had scheduled. With fewer than three earlier failures the scheduler then waits
  for nothing while the peer stays visible (`Reconnect.CreateFailureStallsExactly`, `StallPersists`; from
  power-up, `CreateFailureStallsFromStart`).
- `docs/subsystems/ble.md:205` counts a failed attempt once. Several places note a failure and leave the
  connection to a disconnect that comes later, and until then more can be noted for the same attempt:
  exactly as long as the stack has the connection (`Attempt.FurtherNoteExactly`; from discovery, exactly
  when `FurtherSessionNoteExactly` says). A security failure and a missing service are counted as two
  (`Attempt.SecurityAndDiscoveryBothNote`), so are a refused keyboard and the last other answer
  (`HogFailure.OneAttemptCountedTwice`), and a failure that cannot be posted while the reports leave no room
  for descriptors (`HogFailure.FullQueueFailsTwice`; exactly when, `EndFailsTwiceExactly` and
  `LastFailsTwiceExactly`). The spacing of attempts therefore holds by failed attempts
  (`Reconnect.AttemptsAreSpaced`) but not by notes of failure (`Reconnect.DoubleNotesComeEarly`; exactly
  when, `NoteKeepsSpacingExactly`).
- HID_READY does not keep the input open for the whole connection. A bonded peer's discovery runs before the
  link is secure, and when it becomes so discovery starts over (`Connection.BondedRestarts`). The state machine
  also shuts the gate whenever it releases the bridge (`StateMachine.ReleasesExactly`), whatever becomes of the
  event after that: a long press whose erase fails leaves it CONNECTED, with a ready session and its input shut
  (`InputGate.ConnectedButShut`), until HID_READY is posted again (`InputGate.FailedEraseShutsInput`), for which
  discovery has to be started anew (`InputGate.ReleaseOutlastsSession`).
  `InputGate.GateClosesExactly` says exactly when input closes, and `GateOpensExactly` when it opens.
- `docs/subsystems/ble.md:206-207` gives waits of 5 s and then 10 s in backoff while the peer stays visible, and
  line 205 counts failures after the link came up too. These end in a DISCONNECTED event, which for a bonded peer
  enters fast mode as line 201 has it, and from backoff that sets the count to 0 and allows an attempt at once if
  the peer is in sight (`StateMachine.DisconnectForgetsBackoffExactly`). `Reconnect.AttemptsAreSpaced` is about runs
  without such a reset.
- A discovery session can come to nothing without any event: most callers drop the status of
  `main/src/hog_client.c:480-498`, so when the descriptors of a report after the first cannot be asked for, no
  failure is reported and discovery counts as running until the peer disconnects (`HogWalk.DiesExactly`, which
  also has the other ways, and `DeadForGood`).
- A session can post HID_READY after HID_FAILURE when the peer has two keyboard input reports
  (`HogReadiness.FailureThenReady`). `HogReadiness.ReadyReachableExactly` says when, and
  `HogReadiness.ReadyExcludesFailure` that one keyboard report rules it out.
- `docs/cross-cutting/state-machine.md:147-151` says that a failed erase stays in BOND_ERASING. The code
  changes state only after the command has succeeded (`main/src/state_machine.c:35-46`), so a failed erase
  keeps the state it was in (`StateMachine.FailedEraseStaysConnected`); `StateMachine.ErasesExactly` and
  `FailedEraseStaysExactly` say when BOND_ERASING is entered. That BOND_ERASE_COMPLETE needs both erases does hold.
- RECOVERY_REQUIRED ignores late CONNECT_FAILURE and DISCONNECTED events, as documented, but a late HID_FAILURE
  ends it (`StateMachine.LateHidFailureLeaves`; every way out, `LeavesRecoveryExactly`).

## Model

| member | source | states |
|---|---|---|
| MouseCodec.KnownLengthsExactly | main/src/hog_client.c:208-282 | Payloads of 5 and 9 bytes are decoded and encoded, at that length; any other is refused with SIZE_MISMATCH. |
| MouseCodec.EncodeInvertsDecode | main/src/hog_client.c:218-282 | Decoding a 5- or 9-byte mouse payload and encoding it again gives back the same bytes. |
| MouseCodec.DecodeInvertsEncode | main/src/hog_client.c:218-282 | Encoding any 16-bit body and decoding it gives the body clamped to what the payload length can carry; both lengths always encode. |
| MouseCodec.Le16RoundTrip | main/src/hog_client.c:240-249 | Reading two bytes as a signed little-endian value and writing it gives the two bytes back. |
| MouseCodec.Le16Inverse | main/src/hog_client.c:272-279 | Writing a signed 16-bit value and reading it gives the value back. |
| MouseCodec.NarrowAfterSaturate16 | main/src/hog_client.c:107-113 | Saturating to 16 bits and then to the payload width is one saturation to the payload width. |
| MouseCodec.SatFoldExact | main/src/hog_client.c:292-318 | A fold of saturating additions is the exact sum when no prefix sum leaves the range. |
| MouseCodec.SatFoldOneSign | main/src/hog_client.c:292-318 | A fold of saturating additions is the clamped sum whenever all deltas have one sign, however often it saturates. |
| MouseCodec.SatFoldMixedSignsDiffers | main/src/hog_client.c:292-318 | With mixed signs the fold is not the clamped sum: 100, 100, -100 in a compact payload gives 27, not 100. |
| HogInput.AccumulateDecodes | main/src/hog_client.c:292-318 | The accumulated payload keeps role and length and decodes to the sum of the two bodies, narrowed to that length. |
| HogInput.AccumulateAddsPerAxis | main/src/hog_client.c:284-318 | Accumulation adds each axis with saturation at the payload width and leaves length and buttons byte alone, so it stays mergeable. |
| HogInput.CarriesExtends | main/src/hog_client.c:284-340 | If a report carries a group, then after one more merge it carries the longer group: legal to fold, and each axis is the saturating fold over it. |
| HogInput.PurgeDropsSuffix | main/src/hog_client.c:1161-1174 | Purging the queue removes exactly the newest surviving notifications and leaves the older ones in order. |
| HogInput.LineOfWork | main/src/hog_client.c:320-340 | Any step of the worker moves entries along the line bridged - in hand - deferred - queue without adding, dropping or reordering one. |
| HogInput.StepKeepsInv | main/src/hog_client.c:427-462 | Every notification, purge and worker step keeps the stream invariant. |
| HogInput.StreamRefinement | main/src/hog_client.c:320-462 | Over every interleaving: accepted and not purged notifications equal bridged groups, group in hand, deferred event and queue, in that order; each bridged report carries one legal group of them. |
| HogInput.ButtonsNeverFolded | main/src/hog_client.c:284-340 | Over every run: in a bridged group of two or more every event is a mouse event of the report's own length and buttons byte, and a single event is bridged as it came, so no button change is folded away. |
| HogInput.HeadFoldedExactly | main/src/hog_client.c:284-340 | While merging, the head of the queue is folded if and only if it has role, length and buttons byte of the event in hand; any other is parked as deferred and ends the merging. |
| HogInput.TakenExactly | main/src/hog_client.c:427-446 | The worker takes the deferred event first, then the oldest queued one, and merges only mouse events of 5 or 9 bytes. |
| HogInput.QueuedExactly | main/src/hog_client.c:524-557 | A notification is queued if and only if fewer than 32 are waiting; otherwise it alone is lost. |
| HogInput.DeferredNeverOverwritten | main/src/hog_client.c:320-340 | An occupied deferred slot changes only by being taken in hand. |
| HogInput.OtherRolesPassThrough | main/src/hog_client.c:403-462 | The non-mouse reports bridged are exactly the non-mouse events among the oldest survivors, in order and unmerged. |
| HogInput.BridgedMovement | main/src/hog_client.c:292-340 | Each axis of a bridged mouse report is in range and is the saturating fold of its group: the exact sum when no prefix leaves the range, the clamped sum when all deltas share a sign. |
| HogInput.WorkerDrains | main/src/hog_client.c:427-462 | Left alone, the worker bridges the whole line, in order, within a bounded number of steps, and goes back to waiting. |
| HogInput.InputPath.OnReportNotify | main/src/hog_client.c:524-557 | A notification of the active connection that fits is queued or, if the queue is full, dropped; one of another connection, of no slot, without data or over 16 bytes never is. |
| HogInput.InputPath.PurgeInput | main/src/hog_client.c:1166-1166 | Empties the queue and is the purge of the transition system. |
| HogInput.InputPath.OtherContexts | main/src/hog_client.c:524-557 | What other contexts do between two queue accesses of the worker touches nothing but queue, accepted and purged. |
| HogInput.InputPath.MergeContiguousMouseEvents | main/src/hog_client.c:320-340 | The merge loop is a run of worker steps: it ends ready to bridge, keeps the first event of its group and bridges nothing itself. |
| HogInput.InputPath.InputTaskRound | main/src/hog_client.c:427-462 | One round bridges exactly one report for one nonempty group, or finds the queue empty; a deferred event is always taken first and never left behind. |
| UsbBridge.StepKeepsInv | main/src/usb_bridge.c:227-295 | Every send, release, status change and endpoint event keeps: an ordinary report was only ever submitted when each earlier unanswered request precedes a closing release triple. |
| UsbBridge.ReleaseBeforeOrdinary | main/src/usb_bridge.c:261-295 | Over every run: the first ordinary report after a release request directly follows keyboard-zero, consumer-zero, mouse-zero, all submitted after that request, even if earlier flushes stopped part way. |
| UsbBridge.ReleaseClearsExactlyWhenComplete | main/src/usb_bridge.c:517-525 | A release clears the pending flag exactly when the host is configured and takes all three zero reports; then the wire shows just those three. |
| UsbBridge.TripleReleasesAll | main/src/usb_bridge.c:279-294 | After the triple the last report of every kind is all zero. |
| UsbBridge.UnansweredIsSafe | main/src/usb_bridge.c:261-295 | While a request is not followed by an ordinary report, the release is still owed or every kind's last report is zero. |
| UsbBridge.SilentUntilConfigured | main/src/usb_bridge.c:381-404 | From power-up, a reset or a disconnect until the host configures the device, no run submits a report. |
| UsbBridge.StaysConfigured | main/src/usb_bridge.c:381-404 | Once configured the device stays so through everything but a reset or disconnect. |
| UsbBridge.ConfiguredSends | main/src/usb_bridge.c:227-295 | From any state, once the host configures the device a report goes out whole, behind the three zero reports if a release is owed. |
| UsbBridge.OnlyTakenReportsOccupy | main/src/usb_bridge.c:227-259 | A report the driver refuses or cuts short leaves the endpoint free; one it takes occupies it until the endpoint or a status change frees it. |
| UsbBridge.SendStatusExactly | main/src/usb_bridge.c:208-259 | What a caller is told for every combination of busy endpoint, driver error and short write. |
| UsbBridge.UsbBridge.constructor | main/src/usb_bridge.c:406-443 | Starts unconfigured with a release owed. |
| UsbBridge.UsbBridge.SendReportLocked | main/src/usb_bridge.c:227-259 | Submits at most one report; new state and status are those of the specification for every combination of readiness, driver error and short write. |
| UsbBridge.UsbBridge.FlushSafeStateLocked | main/src/usb_bridge.c:261-295 | Sends the three zero reports in order, stops at the first failure and clears the flag only after all three. |
| UsbBridge.UsbBridge.SendAfterFlush | main/src/usb_bridge.c:453-467 | Sends an ordinary report only after a successful flush and only while configured. |
| UsbBridge.UsbBridge.ReleaseAllReports | main/src/usb_bridge.c:517-525 | Raises the sticky request before trying to flush it. |
| UsbBridge.UsbBridge.StatusChanged | main/src/usb_bridge.c:381-404 | Configured, reset and disconnect set the flag and refill the semaphore; nothing else changes. |
| UsbBridge.UsbBridge.EndpointReady | main/src/usb_bridge.c:297-300 | Frees the endpoint. |
| Bridge.ClosedGateIsQuiet | main/src/bridge.c:57-71 | With the gate closed no sequence of operations short of reopening it submits an ordinary report. |
| Bridge.RequestStands | main/src/bridge.c:48-55 | A release inside such a sequence leaves an unanswered request in the log. |
| Bridge.NoStuckInput | main/src/bridge.c:38-72 | For any history, a release (with others running between its two locked halves) and any continuation that does not reopen the gate: no ordinary report after the gate closed, and a release is owed or the last report of each kind is zero. |
| Bridge.BodiesReachHostUnchanged | main/src/bridge.c:72-93 | An 8-byte keyboard or 2-byte consumer notification reaches the host byte for byte behind its report id. |
| Bridge.ExtendedMouseReachesHost | main/src/usb_bridge.c:491-515 | A 9-byte mouse notification reaches the host unchanged but for the three unused button bits. |
| Bridge.CompactMouseReachesHost | main/src/usb_bridge.c:491-515 | A 5-byte mouse notification reaches the host with each delta sign-extended to 16 bits. |
| Bridge.HostReportIsBuilt | main/src/usb_bridge.c:445-515 | The report built from a notification that is passed on is, byte for byte, what the host is to see for it, for every role and length. |
| Bridge.FirstReportFollowsTriple | main/src/usb_bridge.c:261-295 | The first notification after a release, if all four submissions go through, reaches the host right behind the three zero reports, and the release is settled. |
| Bridge.ConfiguredDelivers | main/src/usb_bridge.c:381-515 | From any state, once the host configures the device the next notification reaches it while the gate is open and the driver takes whole reports, behind an owed release; nothing is assumed of the host before. |
| Bridge.EndpointFreesTheNext | main/src/usb_bridge.c:227-300 | The notification after that waits for the endpoint, or is refused when it does not come free in time. |
| Bridge.SilentUntilConfigured | main/src/usb_bridge.c:381-404 | Over every run of the bridge nothing is submitted between a reset or disconnect and the next configuration. |
| Bridge.OthersAreRefused | main/src/hog_client.c:403-425 | A notification of another role, of a wrong length or behind the closed gate changes nothing, and the status is that of the code in each case. |
| Bridge.ClosedGateForgets | main/src/bridge.c:16-55 | Over every run the three remembered bodies are zero while the gate is closed. |
| Bridge.GateSwitch | main/src/bridge.c:38-55 | Opening the gate changes nothing else; closing it, by either caller, forgets the three bodies and leaves the USB side alone. |
| Bridge.PassedIsRemembered | main/src/bridge.c:72-107 | A notification that passes is remembered for its own kind only, whatever becomes of the report. |
| Bridge.Bridge.SetActive | main/src/bridge.c:38-46 | Sets the gate; closing it zeroes the three remembered bodies. |
| Bridge.Bridge.ReleaseAllInput | main/src/bridge.c:48-55 | Is the two halves of the release run one after the other. |
| Bridge.Bridge.HandleQueuedInput | main/src/bridge.c:57-107 | Closed gate: nothing happens; wrong size: refused without a report; otherwise one send of the matching report. |
| HogDiscoveryProofs.CloseTidy | main/src/hog_client.c:813-831 | Closing the previous slot before the next declaration only shortens that slot and keeps the table ordered. |
| HogDiscoveryProofs.StepKeepsTable | main/src/hog_client.c:709-864 | Every legal callback keeps the report table ordered. |
| HogDiscoveryProofs.TableStaysOrdered | main/src/hog_client.c:709-864 | Over every legal session: at most 8 slots, each value handle at or before its slot's end, slots disjoint and ascending, CCC and report-reference handles inside their own slot. |
| HogDiscoveryProofs.HandlesNeverShared | main/src/hog_client.c:709-758 | No nonzero CCC or report-reference handle is shared by two slots, and each lies before the next slot's value. |
| HogDiscoveryProofs.StepKeepsBudget | main/src/hog_client.c:480-498 | Every legal callback keeps the bound on calls that belongs to the open request. |
| HogDiscoveryProofs.CallsAreBounded | main/src/hog_client.c:908-1127 | Whatever fails and however the answers come, a session makes at most 3 + 3n calls for n reports, 27 at most, and starts subscribing at most once. |
| HogReadiness.LoopReaches | main/src/hog_client.c:1046-1127 | The subscription loop leaves pending equal to the accepted subscriptions still unanswered, no capability set, and no verdict other than a failure. |
| HogReadiness.KeyboardRefused | main/src/hog_client.c:608-640 | With a single keyboard slot, a refused keyboard subscription rules readiness out for good. |
| HogReadiness.StepKeepsSession | main/src/hog_client.c:608-653 | Every legal callback keeps the session invariant, and only an answered subscription can end the session with HID_READY. |
| HogReadiness.ReadyAtMostOnce | main/src/hog_client.c:500-522 | Over every legal session HID_READY is posted at most once and last, complete_discovery never takes its not-ready branch, and the client's last word to the bridge is to open input exactly after HID_READY. |
| HogReadiness.ReadyIsJustified | main/src/hog_client.c:500-541 | The step that posts HID_READY leaves no accepted subscription unanswered, and each input capability announced, the keyboard among them, has a subscribed slot of its role. |
| HogReadiness.VerdictAfterLastAnswer | main/src/hog_client.c:500-522 | Once every accepted subscription has been answered a verdict has been posted. |
| HogReadiness.ReadyExcludesFailure | main/src/hog_client.c:500-522 | With at most one keyboard slot a session that reports HID_READY reports nothing else. |
| HogReadiness.ReadyReachableExactly | main/src/hog_client.c:608-653 | After subscribing has started, also after a HID_FAILURE, HID_READY can still come if and only if an answer is outstanding, none was refused as already present, and a keyboard is subscribed or among the outstanding ones. |
| HogReadiness.AnswerAll | main/src/hog_client.c:608-653 | Gives the answers that lead to HID_READY in that case. |
| HogReadiness.Hopeless | main/src/hog_client.c:608-653 | Otherwise no continuation whatever posts HID_READY. |
| HogReadiness.FailureThenReady | main/src/hog_client.c:1089-1112 | A complete legal session with two keyboard reports that posts HID_FAILURE and then HID_READY. |
| HogFailure.FailureReachableExactly | main/src/hog_client.c:608-906 | At any point of a legal session it can still report a failure - a further one, if it has failed before - if and only if a request is open, a keyboard's answer is outstanding, or any answer is and none was refused as already present. |
| HogFailure.OpenRequestCanFail | main/src/hog_client.c:655-906 | From every open request, gives answers that lead to a failure. |
| HogFailure.FailAgain | main/src/hog_client.c:608-653 | From outstanding subscriptions, gives the answers that lead to one. |
| HogFailure.Settled | main/src/hog_client.c:608-653 | Otherwise no continuation posts anything more or changes whether discovery counts as running. |
| HogFailure.BareHolds | main/src/hog_client.c:760-864 | While characteristics are being discovered no role is known, no mouse feature has been found and nothing has been posted. |
| HogFailure.EndFailsTwiceExactly | main/src/hog_client.c:771-790 | The end of the characteristics reports a failure twice at once if and only if there are reports, none has room for a descriptor, and the first report of the failure cannot be posted. |
| HogFailure.LastFailsTwiceExactly | main/src/hog_client.c:797-862 | So does the last characteristic of the service, if and only if a slot was free and the same holds of the table it leaves. |
| HogFailure.FullQueueFailsTwice | main/src/hog_client.c:797-862 | A legal session with a service of one report without descriptors that reports its failure twice. |
| HogFailure.OneAttemptCountedTwice | main/src/hog_client.c:631-640 | A complete legal session with one keyboard and one consumer report: the keyboard is refused, HID_FAILURE is posted twice, and the scheduler counts two failures for the one attempt. |
| Attempt.InvHolds | main/src/ble_connection.c:343-420 | Over every run of connection callbacks and discovery callbacks: the connection's idea of a running discovery is the session's own, and what the session has been through is legal. |
| Attempt.FurtherNoteExactly | main/src/ble_connection.c:422-515 | A further failure can be noted for the same attempt if and only if the stack still has the connection, whatever has been noted before. |
| Attempt.FurtherSessionNoteExactly | main/src/ble_connection.c:343-420 | Discovery can note a further one if and only if the connection is being made, or it stands and no session is running, or the running one has an open request or answers that are still to decide it. |
| Attempt.SecurityAndDiscoveryBothNote | main/src/ble_connection.c:422-478 | A bonded peer is connected, security fails, and before the disconnect the HID service turns out to be missing: both modules note a failure and the scheduler counts two for the one attempt. |
| Attempt.ClientClosesExactly | main/src/ble_connection.c:397-515 | Of all callbacks of connection and discovery, exactly a disconnect, and a link that becomes secure only now and whose event can be posted, make the client's last word to the bridge that input is shut. |
| InputGate.GateHolds | main/src/bridge.c:38-55 | Over every run of events, connection and discovery callbacks, inputs and USB operations: the gate is open exactly if the client's last word was HID_READY and the state machine has not released the bridge since. |
| InputGate.GateClosesExactly | main/src/bridge.c:38-55 | After any run that left the gate open, the next step closes it if and only if it is an event that releases, a disconnect, or a link that becomes secure only now and whose event can be posted. |
| InputGate.GateOpensExactly | main/src/hog_client.c:1232-1256 | A shut gate is opened by a step if and only if that is a discovery callback with which a session that has not posted HID_READY does so. |
| InputGate.OpenGateDelivers | main/src/bridge.c:57-107 | After any run in which HID_READY was the client's last word and no release has come since, a notification is delivered once the host configures the device, behind an owed release. |
| InputGate.SilentUntilReady | main/src/bridge.c:57-71 | Once the gate is shut it stays shut, and no ordinary report is submitted, through any run in which no HID_READY is posted. |
| InputGate.ReleaseOutlastsSession | main/src/bridge.c:48-55 | A release outlasts the session that had opened the input: whatever comes then, the gate stays shut and no ordinary report is submitted until discovery is started anew. |
| InputGate.FailedEraseShutsInput | main/src/state_machine.c:231-241 | A long press while connected whose erase fails leaves the machine connected and connection and session as they were, but input shut and silent until a new HID_READY. |
| InputGate.ConnectedButShut | main/src/state_machine.c:231-241 | From power-up such a state is reached: the machine connected, the session ready, the gate shut. |
| HogDiscovery.NotedNext | main/src/hog_client.c:1232-1274 | Each further post is noted with the scheduler: a failure for HID_FAILURE, a connection otherwise. |
| HogRoles.TableIsWhatWasFound | main/src/hog_client.c:376-394 | Over every legal session each slot holds exactly the descriptor handles and reference bytes reported for it, and its role is that of the bytes: (1,1) keyboard, (2,1) consumer, (3,1) mouse, (1,2) LED, (3,3) mouse feature, all else none; it is subscribed exactly from a granted subscription to its end. |
| HogRoles.SubscribesExactly | main/src/hog_client.c:1046-1127 | The loop subscribes to exactly the input reports with id 1 to 3 that can notify and have a CCC, up to a keyboard that cannot be subscribed to; it posts a failure at once exactly if there is such a keyboard or no keyboard. |
| HogRoles.AsksExactly | main/src/hog_client.c:1046-1127 | The same of every legal session as a whole: nothing is subscribed to before the loop, and afterwards exactly those reports are. |
| HogRoles.CapabilitiesFollow | main/src/hog_client.c:354-374 | Each capability is what the last callback about a report with those bytes made of it: granted or ended subscription for inputs, reference read for LED and feature. |
| HogRoles.HostSeesTheReportId | main/src/hog_client.c:376-394 | A notification of a keyboard, consumer or mouse slot reaches the host under the report id of that slot's own reference. |
| HogWalk.EveryReportIsLookedInto | main/src/hog_client.c:480-498 | When a legal session starts to subscribe it has asked for the descriptors of every report that can have any, and read every reference found. |
| HogWalk.WalkEndsExactly | main/src/hog_client.c:986-1044 | From any report on, the walk ends in the descriptor request of the next report that can have any, in the mouse feature read if there is none and the feature can be read, and otherwise in the subscriptions; a refused descriptor request ends it in nothing. |
| HogWalk.DiesExactly | main/src/hog_client.c:480-498 | A legal session comes to nothing - no request open, nothing subscribed to or posted, discovery still counted as running - if and only if its first request cannot be made, a ninth report characteristic arrives, a read is answered without a buffer, or the descriptors of a later report cannot be asked for. |
| HogWalk.DeadForGood | main/src/hog_client.c:480-498 | From then on no callback of the session posts anything. |
| HogWalk.FailureTable | main/src/hog_client.c:500-522 | Over every legal session which failure is reported with which reason by the callbacks that fail outright or answer a subscription, and that the last answer posts HID_READY with the capabilities or a failure. |
| HogClient.Client.FailDiscovery | main/src/hog_client.c:1258-1274 | Ends the session, notes one failure with the scheduler, asks for a disconnect and posts one failure; table and gate stay. |
| HogClient.Client.CompleteDiscovery | main/src/hog_client.c:1232-1256 | Tells the scheduler that the peer is connected, and opens the gate and posts readiness exactly when the keyboard capability is set; the metadata stored then is left out. |
| HogClient.Client.FinalizeSubscriptionPhase | main/src/hog_client.c:500-522 | Acts once, and only with no subscription pending. |
| HogClient.Client.SubscribeSlot | main/src/hog_client.c:1089-1102 | Counts the subscription before the call and uncounts it if it is refused; already present counts as accepted. |
| HogClient.Client.StartSubscriptions | main/src/hog_client.c:1046-1127 | The loop computes the recursive specification: skips, optional failures, the fatal keyboard failure and the final check. |
| HogClient.Client.FindSlotByRole | main/src/hog_client.c:119-127 | Finds the first slot with the role, or none. |
| HogClient.Client.StartMouseFeatureRead | main/src/hog_client.c:1019-1044 | Reads the feature slot if there is a readable one. |
| HogClient.Client.AdvanceAfterReportRef | main/src/hog_client.c:480-498 | Moves to the next report, the feature read or the subscriptions; terminates by the reports left. |
| HogClient.Client.StartDescriptorDiscovery | main/src/hog_client.c:950-984 | Asks for the descriptors of the current report, or passes over one without any. |
| HogClient.Client.LookIntoReports | main/src/hog_client.c:776-786 | Starts with the first report and fails the session if that cannot be started. |
| HogClient.Client.OnServiceDiscovered | main/src/hog_client.c:866-906 | Records the service range and asks for characteristics, or fails the session. |
| HogClient.Client.OnCharacteristicDiscovered | main/src/hog_client.c:792-864 | Closes the previous slot in place, appends a report slot, ignores a ninth, and goes on after the last characteristic of the service. |
| HogClient.Client.OnCharacteristicsDone | main/src/hog_client.c:771-790 | Fails a service without reports, otherwise looks into them. |
| HogClient.Client.OnDescriptorDiscovered | main/src/hog_client.c:739-757 | Stores a CCC or report-reference handle in the current slot and in no other. |
| HogClient.Client.OnDescriptorsDone | main/src/hog_client.c:722-737 | Reads the report reference if there is one, otherwise moves on. |
| HogClient.Client.OnReportRefRead | main/src/hog_client.c:655-707 | Stores id, type and role in the current slot; only LED output and mouse feature set a capability here, and a feature sets full wheel resolution unless the host has set one. |
| HogClient.Client.OnMouseFeatureRead | main/src/hog_client.c:559-606 | A valid payload sets the resolution, or has the host's written back; subscriptions follow whatever was read, unless the buffer is NULL. |
| HogClient.Client.WriteMouseFeature | main/src/hog_client.c:164-206 | Writes the resolution to the first feature slot if that takes writes without response. |
| HogClient.Client.SetMouseResolution | main/src/hog_client.c:1219-1230 | Takes over the host's resolution for good and writes it to the peer. |
| MouseFeature.FeatureRoundTrip | main/src/hog_client.c:134-162 | Every payload byte decodes to a resolution that encodes to it, and every resolution that fits comes back. |
| MouseFeature.HostSettingStands | main/src/hog_client.c:559-606 | From the host's setting on, over any sequence of reference and feature reads up to the next setting or reset, the resolution stays and every write to the peer carries it. |
| MouseFeature.PeerSettingTaken | main/src/hog_client.c:559-606 | Until the host sets one, the resolution is the two nibbles of the peer's last valid answer; nothing is written. |
| MouseFeature.HostSettingWrittenBack | main/src/hog_client.c:164-206 | After the host's setting a valid answer of the peer changes nothing but has one byte with that setting written to the first feature slot, if it takes writes. |
| MouseFeature.HostSettingTaken | main/src/hog_client.c:1219-1230 | The host's setting is cut to 15 per wheel, kept, and written once to that slot. |
| MouseFeature.ResetForgetsTheHost | main/src/hog_client.c:1161-1164 | A reset forgets the host's setting: the next feature report starts at full resolution. |
| MouseFeature.MouseScale.SetResolution | main/src/hog_client.c:129-132 | Stores the resolution clamped to 15 per wheel. |
| HogClient.Client.OnReportSubscribed | main/src/hog_client.c:608-653 | Counts the answer, marks slot and capability on success, fails the session for a refused keyboard, and finalizes otherwise. |
| HogClient.Client.OnReportUnsubscribed | main/src/hog_client.c:538-542 | A NULL notification clears the slot's flag and its role's capability. |
| HogClient.Client.Reset | main/src/hog_client.c:1161-1174 | Clears context, profile, gate and wheel resolution; the queue purge and the reference given back are stated elsewhere. |
| HogClient.Client.StartDiscovery | main/src/hog_client.c:1176-1202 | Leaves a running session of the same connection alone, otherwise starts a fresh one with one service request. |
| Reconnect.FailureCounts | main/src/ble_reconnect.c:159-192 | A failure raises the counter behind the modes by one, up to 5, and schedules 500, 1000, 2000, 5000 or 10000 ms by the new count. |
| Reconnect.CounterChanges | main/src/ble_reconnect.c:92-204 | The counter is reset only by fresh observation, explicit reset, connecting, or entering fast from backoff; entering backoff from outside sets it to 4; nothing else but a failure changes it. |
| Reconnect.ReenterKeepsCounter | main/src/state_machine.c:52-61 | Re-entering the current reconnect mode after a failure keeps the counter. |
| Reconnect.InSightAfterSighting | main/src/ble_reconnect.c:132-150 | Over every run from any state: after a sighting the peer is in sight, and the timer that takes it out can run exactly from 2000 ms after the last sighting, told from the operations alone; only a reset of the scheduler or a connection ends this otherwise. |
| Reconnect.LostSightStopsAttempts | main/src/ble_reconnect.c:52-59 | When that timer runs the peer is out of sight and no attempt is allowed or scheduled; mode and failure count stay. |
| Reconnect.FreshSighting | main/src/ble_reconnect.c:132-150 | The next sighting starts over: no failures, and the first attempt after 750 ms; a sighting of a visible peer only rearms the timer. |
| Reconnect.NoLostWakeUp | main/src/ble_reconnect.c:34-76 | Over every run: visible, not idle and no attempt outstanding means that an attempt is allowed or its timer is pending. |
| Reconnect.CreateFailureStallsExactly | main/src/ble_scan.c:229-243 | If creating a connection to a visible bonded peer fails at once, then after the posted CONNECT_FAILURE has been handled the scheduler has neither permission nor timer if and only if fewer than 3 failures had been counted; a failure that comes later never does this. |
| Reconnect.CreateFailureStallsFromStart | main/src/ble_scan.c:229-243 | The stall is reached from power-up: first advertisement, settle time, attempt timer, and a create that fails. |
| Reconnect.StartUsesPermission | main/src/ble_reconnect.c:152-157 | Noting the start of an attempt leaves nothing allowed or scheduled. |
| Reconnect.IdleSchedulesNothing | main/src/ble_reconnect.c:194-204 | Over every run the idle scheduler, as it is at power-up, has neither permission nor timer. |
| Reconnect.StallPersists | main/src/ble_scan.c:273-280 | From such a stall no advertisement, lapse of time or attempt timer allows an attempt while the peer stays in sight. |
| Reconnect.FloorClosedForm | main/src/ble_reconnect.c:159-192 | The waits after n >= 4 failures add up to 8500 + 10000 * (n - 4) ms. |
| Reconnect.AttemptsAreSpaced | main/src/ble_reconnect.c:132-216 | In a clocked run with the peer in sight and without a reset (a fresh start of fast mode, as handling DISCONNECTED from backoff makes one), no attempt is allowed after the n-th failed attempt (n >= 4) before 8500 + 10000 * (n - 4) ms from the first, whatever advertisements, timers, entries into backoff, and starts and failures noted at any time interleave. A failed attempt is a note of failure made while an attempt was under way or allowed; one is under way from a start noted when allowed. |
| Reconnect.SeenOftenStaysInSight | main/src/ble_reconnect.c:132-150 | In a run from a first sighting on whose sightings are always less than 2000 ms old, no timer takes the peer out of sight. |
| Reconnect.AdvertisedAttemptsAreSpaced | main/src/ble_reconnect.c:132-216 | The spacing of attempts in terms of what the peer does: for a peer seen again within 2000 ms each time and a counter that is not reset. |
| Reconnect.CreateFailureWatched | main/src/ble_scan.c:229-243 | A create that fails at once is one failed attempt of such a run, and the start noted after it is none. |
| Reconnect.NoteKeepsSpacingExactly | main/src/ble_reconnect.c:159-192 | Counting notes of failure instead, the bound survives one more note if and only if the wait it schedules reaches the bound; a note that ends an attempt always does, and with the counter in step any other exactly if the wait before it is over. |
| Reconnect.NextNoteExactly | main/src/ble_reconnect.c:159-192 | The same for the next note of any run in which so far every note has ended an attempt. |
| Reconnect.DoubleNotesComeEarly | main/src/ble_reconnect.c:159-192 | Two attempts whose failures are each noted twice: the attempt after the fourth note is allowed 6000 ms after the first. |
| Reconnect.Scheduler.ScheduleAttemptIn | main/src/ble_reconnect.c:61-72 | Allows the attempt now or replaces the timer, never both. |
| Reconnect.Scheduler.EnterFastMode | main/src/ble_reconnect.c:92-109 | No effect in fast mode; otherwise starts over with an immediate attempt. |
| Reconnect.Scheduler.EnterBackoffMode | main/src/ble_reconnect.c:111-120 | Keeps the backoff delay and restarts its wait. |
| Reconnect.Scheduler.ResetFastReconnect | main/src/ble_reconnect.c:122-130 | Forgets the peer's visibility and starts over in fast mode. |
| Reconnect.Scheduler.NoteKnownPeerSeen | main/src/ble_reconnect.c:132-150 | Rearms the visibility timer; a peer newly in sight restarts fast mode after the settle time. |
| Reconnect.Scheduler.NoteAttemptStarted | main/src/ble_reconnect.c:152-157 | Takes back permission and timer. |
| Reconnect.Scheduler.NoteFailure | main/src/ble_reconnect.c:159-192 | Advances fast index, enters backoff or doubles its delay, and schedules the wait. |
| Reconnect.Scheduler.NoteConnected | main/src/ble_reconnect.c:194-204 | Returns to idle and stops both timers. |
| Reconnect.Scheduler.AttemptTimerFired | main/src/ble_reconnect.c:34-50 | Allows the attempt and triggers it only while the peer is visible. |
| Reconnect.Scheduler.VisibilityTimerFired | main/src/ble_reconnect.c:52-59 | Drops visibility, permission and timer. |
| Reconnect.Scheduler.ShouldAttemptNow | main/src/ble_reconnect.c:206-216 | True exactly for a visible peer in idle mode or with permission. |
| EventQueue.EventsInOrder | main/src/ble_manager.c:118-128 | Over every run of posts and takes: the events taken and those waiting are the accepted ones, in order, and at most 16 wait. |
| EventQueue.PostsExactly | main/src/ble_manager.c:196-210 | After any run: a post is accepted if and only if the thread runs and fewer than 16 wait, what it is told otherwise, and that a take finds the oldest. |
| EventQueue.Poster.PostEvent | main/src/ble_manager.c:196-210 | Appends to a queue of 16; refuses before the thread runs and when full. |
| EventQueue.Poster.TakeEvent | main/src/ble_manager.c:118-128 | Takes the oldest event. |
| ScanControl.Scanner.Begin | main/src/ble_scan.c:305-337 | Starting a scan in the running mode changes nothing; otherwise the old scan is stopped first, and each error leaves the state the code leaves. |
| ScanControl.Scanner.BeginPairing | main/src/ble_scan.c:353-356 | Forgets the last known peer, then scans in pairing mode. |
| ScanControl.Scanner.BeginKnownDevice | main/src/ble_scan.c:358-381 | A running known-device scan is left alone; otherwise the accept list is rebuilt before scanning. |
| ScanControl.Scanner.StopScan | main/src/ble_scan.c:395-415 | Stops a running scan; idle is no error. |
| BleManager.ExecuteExactly | main/src/ble_manager.c:45-87 | A command succeeds if and only if its own calls can: scan readiness, stop, start, accept list and queue for scans, stop for stopping, and stop, readiness, unpairing and metadata for erasing; bonds go as soon as they can be unpaired, and the last peer seen is forgotten exactly by a pairing scan. |
| BleManager.ScansExactly | main/src/ble_scan.c:305-381 | A scan command leaves a scan running in its mode if and only if one ran already or its calls go well; a scan really started is announced by SCAN_STARTED if the queue takes it, and nothing else is posted. |
| BleManager.Manager.ExecuteCommand | main/src/ble_manager.c:45-87 | Runs each command's calls in order and stops at the first error; erasing ends with the metadata's answer. |
| StateMachine.TransitionAgrees | main/src/state_machine.c:35-46 | A transition changes the state only if its command succeeds, and then scanner, scheduler and bond store are as the new state says. |
| StateMachine.HandleAgrees | main/src/state_machine.c:136-252 | Whenever an event issued a command and is handled with OK, the subsystems agree with the new state: pairing or known-device scan active, reconnect mode FAST or BACKOFF, or no scan. |
| StateMachine.ConnectionEventTable | main/src/state_machine.c:166-213 | For every state, in terms of handle_event: which command each connection event issues by bond, reconnect mode and recovery, which state follows its success, which its failure, and which events only change or keep the state. |
| StateMachine.DeviceEventTable | main/src/state_machine.c:197-251 | The same for HOST_RESET, METADATA_FAULT, both button presses and BOND_ERASE_COMPLETE. |
| StateMachine.StartupEventTable | main/src/state_machine.c:80-163 | The same for the four startup events: one scan command exactly if all three flags are up in USB_READY. |
| StateMachine.FlagsAfter | main/src/state_machine.c:107-251 | What every event does to the four flags, whether its command succeeds or not. |
| StateMachine.UnbondedAlwaysPairs | main/src/state_machine.c:173-230 | Without a bond, CONNECT_FAILURE, HID_FAILURE, DISCONNECTED, a short press and METADATA_FAULT issue START_PAIRING_SCAN or nothing, and reach PAIRING_SCAN whenever that scan can start. |
| StateMachine.ErasesExactly | main/src/state_machine.c:231-241 | A long press enters BOND_ERASING if and only if release, end of scan, unpairing and metadata erase succeed, and posts BOND_ERASE_COMPLETE only then and if the queue takes it; otherwise the state stays. It reports OK exactly if all of that succeeded. |
| StateMachine.FailedEraseStaysExactly | main/src/state_machine.c:63-78 | A long press that fails is in BOND_ERASING if and only if it was there before, or everything was erased and only the post failed. |
| StateMachine.FailedEraseStaysConnected | main/src/state_machine.c:63-78 | Connected, with bonds that cannot be unpaired: the long press fails and the machine stays connected. |
| StateMachine.FailureKeepsPhase | main/src/state_machine.c:35-78 | After any failing event the state is the one before it (but for the step out of BOOT), and BOND_ERASING exactly for a long press that erased everything and failed to post. |
| StateMachine.BondedFailureKeepsCounter | main/src/state_machine.c:173-182 | CONNECT_FAILURE (outside recovery) and HID_FAILURE (in any state) of a bonded peer re-enter the current reconnect mode without touching the failure counter. |
| StateMachine.ReleasesExactly | main/src/state_machine.c:143-241 | Handling an event releases the bridge if and only if it is DISCONNECTED, HOST_RESET, BOND_MISMATCH or BUTTON_LONG_PRESS and is not ignored in recovery: once, first, and whatever the release answers. |
| StateMachine.DisconnectForgetsBackoffExactly | main/src/state_machine.c:186-230 | DISCONNECTED or a short press takes the failure count from backoff back to 0, and allows an attempt at once to a peer in sight, if and only if the peer is bonded, the machine is not in recovery and, for DISCONNECTED, the release answered OK; otherwise the scheduler is left alone. |
| StateMachine.LeavesRecoveryExactly | main/src/state_machine.c:143-251 | An event ends RECOVERY_REQUIRED if and only if it is one of four that do so at once, or one of five whose release and command can be carried out, in terms of the return codes of their calls. |
| StateMachine.RecoveryPlans | main/src/state_machine.c:169-251 | Which release and command each of those five has. |
| StateMachine.LateHidFailureLeaves | main/src/state_machine.c:173-182 | A late HID_FAILURE of a bonded peer ends recovery whenever a known-device scan can be started. |
| StateMachine.RecoveryPersists | main/src/state_machine.c:143-225 | Any finite sequence of all other events leaves RECOVERY_REQUIRED and issues no command, whatever happens to scanner, scheduler, bonds and queue between them. |
| StateMachine.StartupConfluence | main/src/state_machine.c:80-105 | With a ready runtime and a bond inventory that does not change: for any number and order of USB_READY, BLE_SYNCED and the matching PERSIST event, the state depends only on which occurred, and exactly one scan command is issued once all three have. |
| StateMachine.GateShutAfterReset | main/src/state_machine.c:197-205 | After HOST_RESET, however it went, and through any other events and anything between them: until a new BLE_SYNCED no startup event issues a command. |
| StateMachine.WaitsAfterReset | main/src/state_machine.c:197-205 | A successful HOST_RESET stops the scan; while only startup events repeat, the machine then waits in USB_READY and issues nothing, whatever happens between them. |
| StateMachine.GateReopens | main/src/state_machine.c:80-105 | The next BLE_SYNCED issues one scan command, for the bonds there are by then. |
| StateMachine.RoundHandlesOldest | main/src/ble_manager.c:118-141 | A round of the event task without an event changes nothing; any other takes the oldest event off the queue and handles just that one. |
| StateMachine.Machine.Transition | main/src/state_machine.c:35-46 | Command first, state only on success. |
| StateMachine.Machine.EraseAndAnnounce | main/src/state_machine.c:231-241 | Release, erase, change state, announce; stops at the first error. |
| StateMachine.Machine.AdvanceGate | main/src/state_machine.c:80-105 | Leaves BOOT when USB is ready and opens the gate when all three flags are up in USB_READY. |
| StateMachine.Machine.HandleEvent | main/src/state_machine.c:136-252 | Handles every event as the specification does, with the bond flag refreshed first and three events ignored in recovery. |
| StateMachine.Machine.EventTaskRound | main/src/ble_manager.c:118-141 | Takes the oldest event off the queue and has it handled; does nothing without one. |
| Connection.HogStartConserves | main/src/hog_client.c:1176-1202 | Starting discovery, over an older session too, keeps one reference per pointer. |
| Connection.DisconnectReleasesAll | main/src/ble_connection.c:480-498 | A disconnect gives back every reference and clears both pointers. |
| Connection.StepConserves | main/src/ble_connection.c:187-298 | Every stack-legal callback keeps one reference per non-NULL pointer. |
| Connection.ReferencesConserved | main/src/ble_connection.c:187-298 | Over every stack-legal order of callbacks: references taken minus released equal the non-NULL pointers among g_active_conn and g_ctx.conn, none is released twice, the HOG client only points to the active connection, and both are NULL with nothing held after a disconnect or a failed connect. |
| Connection.MismatchNeedsTwoInARow | main/src/ble_connection.c:397-478 | Over every run: the streak is the number of trailing failures, as reported, that had a bond and one of three errors, up to 255; a secured link has streak 0; and BOND_MISMATCH is posted exactly for an outcome that makes two of them in a row, the reconnect failure being noted for all other failures. |
| Connection.BondMismatchExactly | main/src/ble_connection.c:172-185 | After any run a callback posts BOND_MISMATCH if and only if it brings a security failure with a bond present and one of the errors AUTH_FAIL, PIN_OR_KEY_MISSING, UNSPECIFIED, and so did the security outcome before it. |
| Connection.StepRecords | main/src/ble_connection.c:397-478 | The history of security outcomes is just what the callbacks brought, with bond and error as reported, and only an outcome posts BOND_MISMATCH. |
| Connection.PostsExactly | main/src/ble_connection.c:187-206 | After any stack-legal run a callback posts exactly the events that its kind and its security outcome call for, in order; a link that is secure already stays silent. |
| Connection.FlagsTell | main/src/ble_connection.c:57-76 | Over every stack-legal run: an attempt is pending exactly from a successful create to its answer, a disconnect or the watchdog; the link counts as secure exactly while the last word on its security was a success; without a live one no handle is remembered. |
| Connection.DisconnectsExactly | main/src/ble_connection.c:57-76 | A disconnect is asked for exactly by a security failure or by the watchdog of an attempt under way. |
| Connection.Connections.StartDiscovery | main/src/hog_client.c:1176-1202 | Takes a reference for a new session after giving back the old one; NULL is an error. |
| Connection.SecuredStartsExactly | main/src/ble_connection.c:397-420 | On a live connection a security success starts discovery, over again if need be, if and only if the link was not secure, the event could be posted and no discovery is running. |
| Connection.ConnectedStartsExactly | main/src/ble_connection.c:343-379 | A new connection starts discovery at once if and only if the event could be posted and the peer is bonded, or the link is secure already and that could be posted too. |
| Connection.BondedRestarts | main/src/ble_connection.c:343-420 | A legal run in which a bonded peer's discovery has ended when the link becomes secure, and is started again on the same link. |
| Connection.Connections.SecurityReady | main/src/ble_connection.c:397-420 | A link that is secure already is left alone; otherwise the streak ends and, if the event could be posted, discovery is started unless it is running. |
| Connection.OneNotePerConnectFailure | main/src/ble_connection.c:381-478 | Over every run the scheduler is told of exactly one failure per CONNECT_FAILURE posted, and BOND_MISMATCH is posted once per confirmed mismatch. |
| Connection.SecurityFailureNotesExactly | main/src/ble_connection.c:422-442 | A security failure is noted with the scheduler unless it is the second mismatch in a row or a later one. |
| Connection.Connections.ConnectFailed | main/src/ble_connection.c:381-395 | Ends the attempt, notes one failure, posts CONNECT_FAILURE and answers the post's status. |
| Connection.Connections.JudgeFailure | main/src/ble_connection.c:422-442 | Saturating streak; a mismatch is confirmed from the second one on and any other failure is to be noted. |
| Connection.Connections.SecurityFailure | main/src/ble_connection.c:422-478 | Judges the failure, notes it unless confirmed, asks for a disconnect of an active connection and posts BOND_MISMATCH or CONNECT_FAILURE. |
| Connection.Connections.ConnectSuccess | main/src/ble_connection.c:343-379 | Discovery at once for a bonded peer, security first otherwise. |
| Connection.Connections.Connected | main/src/ble_connection.c:187-206 | A failed connect drops the reference, notes a failure and posts it; a successful one goes on. |
| Connection.Connections.Disconnected | main/src/ble_connection.c:480-498 | Gives back the HOG reference, then the active one. |
| Connection.Connections.Connect | main/src/ble_connection.c:266-298 | Refuses while a connection exists; stores a created one; a failed create notes a failure, posts it and answers the post's status. |
| Connection.Connections.WatchdogExpired | main/src/ble_connection.c:57-76 | Asks for a disconnect only for a pending attempt. |
| CandidateCache.ParseElementsOrs | main/src/ble_scan.c:136-174 | Parsing a packet's elements ORs the HID and keyboard flags, told from the bytes of each element, and keeps the last name. |
| CandidateCache.ReceiveFacts | main/src/ble_scan.c:251-272 | Receiving a packet keeps or restarts the chosen slot and adds the packet's own evidence. |
| CandidateCache.CacheAccountsForPackets | main/src/ble_scan.c:70-214 | Over every run: in-use addresses are distinct, each slot's flags are the OR over that address's packets since the slot was initialised, which was after the last clear, its name is the last they told, and it is reported exactly if they have made it a keyboard to pair with. |
| CandidateCache.PairsExactly | main/src/ble_scan.c:216-272 | After any run a packet makes the scanner ask for a pairing connection if and only if it comes in pairing mode and the packets of its address since the slot was initialised, up to one in pairing mode, told: connectable, the HID service, a keyboard appearance and an allowed name - all in terms of their bytes. |
| CandidateCache.RefinesBoundedMap | main/src/ble_scan.c:86-134 | The cache is a bounded map: receiving a packet updates one address and evicts at most the one chosen entry. |
| CandidateCache.EvictsOnlyTheOldest | main/src/ble_scan.c:86-134 | An entry that is not stale loses its slot only when the cache is full, holds no stale entry and not the address, and then it is the oldest. |
| CandidateCache.SlotIsUnique | main/src/ble_scan.c:86-134 | The slot that must be answered is unique. |
| CandidateCache.Cache.FindCandidateSlot | main/src/ble_scan.c:86-134 | Always answers a slot: the first of the address, else the first free one, else the first stale one, else the first of the oldest; only that slot changes, refreshed or initialised. |
| CandidateCache.Cache.ScanUuids | main/src/ble_scan.c:143-150 | Finds the HID UUID exactly if it is in the list. |
| CandidateCache.Cache.ParseAdElement | main/src/ble_scan.c:136-174 | Computes the specification of one element. |
| CandidateCache.Cache.OnScanRecv | main/src/ble_scan.c:251-272 | Updates exactly the chosen slot; asks for a pairing connection if and only if pairing mode is on and that slot is reported. |
| CandidateCache.Cache.ResetCandidateCache | main/src/ble_scan.c:51-53 | Empties all 8 slots. |
| PairingFilter.ParseIsFirstTokens | main/src/pairing_filter.c:71-98 | The tokenizer stores exactly the first 8 nonempty trimmed comma-separated tokens; one of 32 characters or more gives SIZE_MISMATCH and leaves the tokens before it stored. |
| PairingFilter.TrimExactly | main/src/pairing_filter.c:36-52 | Trimming takes away exactly the blanks (tab to carriage return, and space) at both ends. |
| PairingFilter.TokensAreStretches | main/src/pairing_filter.c:71-84 | Every token is a nonempty trimmed stretch between two commas or ends of the configured string. |
| PairingFilter.AllowedExactly | main/src/pairing_filter.c:105-125 | A name is allowed if and only if the filter is off, no entry is stored, or it is nonempty and equals an entry character by character but for the case of Latin letters. |
| PairingFilter.ParseInvertsJoin | main/src/pairing_filter.c:71-98 | Joining up to 8 valid names and parsing the result gives the list back. |
| PairingFilter.TruncationIsHarmless | main/src/ble_scan.c:161-167 | Cutting a name to 32 bytes never changes the filter's answer. |
| CandidateCache.StoredNameIsTruncated | main/src/ble_scan.c:161-167 | What the scanner stores of a name element is the C string in its bytes, cut to 32. |
| CandidateCache.ScannerTruncationIsHarmless | main/src/ble_scan.c:161-167 | For any packet bytes the filter decides on the stored name as it would on the whole one. |
| PairingFilter.PairingFilter.SkipSpaces | main/src/pairing_filter.c:36-52 | Stops at the first character that is not a blank. |
| PairingFilter.PairingFilter.TrimInPlace | main/src/pairing_filter.c:36-52 | Leaves the trimmed string at the returned offset and writes only inside the text it trims. |
| PairingFilter.PairingFilter.CutField | main/src/pairing_filter.c:71-81 | Ends the field at the next comma and steps past it, writing nothing before the cursor. |
| PairingFilter.PairingFilter.CutToken | main/src/pairing_filter.c:71-84 | Cuts and trims one field; what was before the cursor is untouched. |
| PairingFilter.PairingFilter.TokenizerRound | main/src/pairing_filter.c:71-96 | One round stores at most one name, and the names stored before stay intact in the buffer. |
| PairingFilter.PairingFilter.Init | main/src/pairing_filter.c:54-99 | What is stored afterwards is the first 8 tokens of the configured string, up to an overlong one, with the exact error cases. |
| PairingFilter.PairingFilter.EqualsCaseInsensitive | main/src/pairing_filter.c:19-34 | True exactly if the lower-cased strings are equal. |
| PairingFilter.PairingFilter.NameAllowed | main/src/pairing_filter.c:105-125 | True exactly if the filter is off, the list is empty or the nonempty name matches an entry in any case. |

## Left out

- Status changes inside a locked USB section: `g_usb_configured` is written without the lock
  (`main/src/usb_bridge.c:381-404`). Status changes fall between locked sections here, which is the
  granularity at which the release properties are meant.
- A write that fails or is short counts as not submitted; what the host saw of it is not modelled.
- Stopping of input from an old connection: a purge empties the queue but neither the event in hand nor
  the deferred one (`main/src/hog_client.c:432-442`), so the stream property keeps both as parts of the line.
- HogInput.InputPath.InputTaskRound: the worker is given a finite schedule of interruptions, so the merge
  loop ends; the transition system beside it has no such limit.
- Global progress of discovery: that a session which is not dead in the sense of `HogWalk.DiesExactly` ends needs
  answers of the peer, which may fail to come.
- The host's feature reports (`main/src/usb_bridge.c:302-373`) appear only as `MouseFeature.Step` with `HostSets`.
- HogReadiness.VerdictAfterLastAnswer: a subscription that the stack refuses as already present counts as
  accepted but is never answered, so a session with one has no verdict to speak of.
- Callbacks of another connection, which discovery ignores (`main/src/hog_client.c:342-344`), and the
  `in_use` flag of a slot, which is set for every slot below the count.
- HogClient.Client.OnCharacteristicDiscovered: that a CCC belongs to that very characteristic is not claimed,
  since characteristics that are not reports widen the slot before them.
- System-wide reconnect liveness: the scanner's own trigger path appears only as `Reconnect.KnownConnect`,
  and a disconnect before readiness notes no failure.
- Attempt.FurtherNoteExactly: the stack may report a security outcome at any time while the link is up; when it
  really does so is up to the peer and is not modelled.
- HogClient.Client.CompleteDiscovery: does not model the peer metadata that is stored on success.
- HogClient.Client.Reset: the queue purge is `HogInput.InputPath.PurgeInput` and the reference given back is in
  `Connection.Connections.ResetHog`; the three are not composed into one object.
- Event payloads (reason, status, handle, capability flags) and the accept list's contents.
- `main/src/persist.c`, `main/src/ble_runtime.c` and `main/src/startup.c`: a bond flag, a readiness flag and a
  source of events stand for them.
- LEDs, GPIO, the button, logging, the HID report descriptor and the unused `set_profile`.
