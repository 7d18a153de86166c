# Formal model of the native nRF7002 driver core

This project models the protocols at the heart of the nRF7002 Wi-Fi driver and
proves what they promise. Everything is stated over all inputs, all
interleavings or all runs. `dafny verify dfyconfig.toml` checks it.

| file | what it models |
|---|---|
| `NetworkQueue`, `NetworkQueueProof`, `NetworkQueuePush`, `NetworkQueueReport`, `NetworkQueueProgress` | the lock-free two-slot queue between `embassy-net` tokens, runners and link controllers, one atomic access to a step, any number of threads |
| `KeyWrap` | RFC 3394 key unwrap, in place, over an abstract block cipher |
| `EapolKey`, `KeyMaterial` | EAPOL-Key frames, the PRF, key data elements |
| `RsnElement` | validation of the RSN element against an independent grammar |
| `Supplicant`, `SupplicantProof`, `Handshake`, `Retransmission` | the WPA2 four-way and group handshakes, the safety of all their runs, their completion with a conforming authenticator, and what every retransmission does |
| `Station`, `Driver`, `Production`, `Connection`, `ControlledPort`, `Deadlines` | station state machine, native driver, fail-closed production driver, runs of it that connect, what opens the controlled port, bounded waiting |
| `SecureRuntime`, `SecureDriver`, `SecureProgress`, `SecondAssociation` | coordination of supplicant, station and firmware acknowledgements, the integrated driver with its runs, a run that connects for every access point, and associating again during a handshake |
| `CommandQueue`, `EventQueue`, `EventBus`, `Device` | command delivery over a failing bus, event reassembly over any arrival schedule and over a failing bus, and the device object |
| `PacketRam`, `DataPath`, `Conversion` | packet-RAM layout, token and descriptor ownership, 802.11 to Ethernet conversion in place |
| `Spi`, `Memory` | SPI framing with read latency and failing transactions, chunked access to RPU memory |
| `Firmware` | the firmware container |
| `Bytes`, `DeviceTypes`, `Wrappers` | shared definitions |

How the model is built:

- Objects that update their fields are classes. Each method's `ensures` gives the
  whole new state as a specification function of the old one, and the lemmas
  state what the protocol promises about those functions, over single calls and
  over runs. Loops in the source are loops here.
- Cryptography is a value `Crypto` of uninterpreted functions; the only law is that
  the block cipher is a permutation. Bus answers, firmware events, radio results
  and elapsed times are inputs of the calls, unconstrained unless stated.
- The safety theorems are not vacuous: `NetworkQueueProgress`, `Handshake`, `Connection` and `SecureProgress` build, for all
  parameters, the runs that deliver a frame in each direction, complete a handshake and any number of rekeys, and
  open the controlled port of an open and of a secure network from a new driver. They reach the states the other
  theorems speak about.
- Integer widths are explicit where they matter: 32-bit tickets wrap, 16-bit statuses
  truncate, addresses are bounded by 2^32.

What the code does that its comments or a caller may not expect. Each is kept in the
model, shown on an input, and given its exact condition:

- An exact retransmission of Message 3 is answered if and only if no installation is outstanding and no group rekey
  has completed. While a group installation is outstanding it is refused as busy; after a completed rekey it fails
  the handshake (`Retransmission.Message3Again`, and `InstallFrameAgain` for every installation's frame;
  `RekeyMakesMessage3Fatal` is the failing input).
- An unreadable watchdog faults the native driver but leaves an open port open
  (`Driver.NativeWatchdogLeavesThePortOpen`, in a run: `Connection.WatchdogFaultInARun`); the production layer
  closes it (`Production.WatchdogFaultRecovers`).
- A read of an event keeps device and firmware in agreement, whatever bus error it meets, if and only if it is
  refused for a changed buffer, or no fragment is ready before it, or no event is pending and the next one is a single
  fragment (`EventBus.SurvivesEveryError`; over runs `EventBus.NextReadSurvives` and
  `EventBus.RobustErrorsKeepAligned`). From any other state some error does not, and then a later read can mix two
  events into one (`EventBus.EventsAreMixedInARun`). Which errors do harm is `EventBus.AlignedExactlyWithoutHarm`. The production driver recovers after every such error, the native driver does
  not (`Production.BrokenReadRecovers`).
- A carrier event opens the port of an authorized station in every state (`ControlledPort.CarrierOpensExactly`). So
  the port opens before an open network has answered the association (`ControlledPort.OpensBeforeTheResponse`), and
  again while the station is being disconnected or brought down (`ControlledPort.ReopensWhileLeaving`,
  `ControlledPort.SecureReopens`). In the runs of the production driver it opens a station that has not joined in
  exactly these cases (`ControlledPort.CarrierOpensEarlyExactly`).
- A final report of a TX frame does not look at the link. The link was up in the frame's epoch after the frame was
  claimed (`NetworkQueueReport.FinalReportsAreBacked`), but may have left it by the report
  (`NetworkQueueProgress.AnyFrameCanBeReportedLate`).
- After a secure association a station is authorized only by a whole handshake since then, if and only if no
  Message 4 of an earlier handshake was on its way at the association (`SecondAssociation.EarnestExactly`;
  `PortOpensUnearned` is the run that shows it).
- `transmit` on a device that is not initialized, of a valid frame with a token free, loses the token until the next
  reset, and nothing else ever loses one (`DataPath.UninitializedTransmitLosesAToken`,
  `DataPath.OnlyThatLosesAToken`).
- `push_rx` may report `LinkDown` for a frame that a callback was given (`NetworkQueueProgress.DeliveredAndRefused`);
  then the link had left the frame's epoch after the frame was stored (`NetworkQueuePush.DeliveredDespiteError`).
- Memory accesses are accepted by their ends alone, if both lie in regions with one base (`Memory.AcceptedEnds`).
  Addresses between may be unmapped (`Memory.GapIsAccepted`); none is if and only if one region holds both ends
  (`Memory.AcceptedTouchesOnlyMapped`).
- In-place conversion gives back a frame if and only if its EtherType is at least
  0x0600 (`Conversion.MpduRoundTrip`, `Conversion.MsduRoundTrip`), and panics on an MPDU without its frame control
  (`Conversion.PanicsExactly`).
- A nonzero result of an authentication or association lets the station proceed if and only if it is a multiple of
  65536 (`Station.NonzeroResultProceeds`, `Station.TruncatedRejectionsProceed`).

## Model

| member | source | states |
|---|---|---|
| `NetworkQueueProof.ExclusiveOwnership` | src/embassy.rs:142-263 | In every interleaving a slot in CLIENT or PRODUCER has exactly one holder and a slot in FREE or READY has none; whoever is copying into a buffer or looking at it is its holder, so no two mutable views of a buffer coexist |
| `NetworkQueueProof.OnlyTheHolderWrites` | src/embassy.rs:398-485 | In every reachable state any step that changes a slot's buffer, length or epoch is a step of the thread holding that slot |
| `NetworkQueueProof.ReceivedFramesAreExact` | src/embassy.rs:166-390 | Non-empty bytes given to an RX callback are exactly one frame that `push_rx` stored READY in the token's epoch, the link was up in that epoch at an instant inside the call, and no stored frame is given out twice, including runs through contention restore and publish-then-recheck |
| `NetworkQueueProof.LeasedFramesAreExact` | src/embassy.rs:488-611 | Non-empty bytes read through a `TxLease` are exactly the frame published by one `TxToken::consume` in the lease's epoch, and the link was up in that epoch at an instant inside `as_slice` |
| `NetworkQueueProof.AtMostOneFinalReport` | src/embassy.rs:591-611 | However many `WouldBlock` returns, lease drops and link flaps occur, a published frame is reported Submitted or Dropped at most once, and only published frames are |
| `NetworkQueueReport.FinalReportsAreBacked` | src/embassy.rs:488-600 | In every interleaving each final report is `Submitted` or `Dropped`, of a frame published in the lease's epoch, and the link was up in that epoch at an instant after the lease claimed the frame and not after the report |
| `NetworkQueueReport.ReturnedFramesAreCurrent` | src/embassy.rs:591-611 | In every interleaving `WouldBlock` or a dropped lease puts a frame back only as a frame of the lease's epoch, and only if the link was up in that epoch at an instant inside the call: no stale lease returns an old frame |
| `NetworkQueuePush.PushResultsAreBacked` | src/embassy.rs:450-485 | In every interleaving: `push_rx` returns `Ok` only if the link was up in the frame's epoch at an instant after the frame was stored, `LinkDown` for a stored frame only if at such an instant it was not, every other error only without storing one, and no stored frame is reported by two calls |
| `NetworkQueuePush.DeliveredWasPushed` | src/embassy.rs:450-485 | Every delivered frame belongs to a `push_rx` that returned `Ok` or `LinkDown`, or that has stored it and not returned yet |
| `NetworkQueuePush.DeliveredDespiteError` | src/embassy.rs:467-485 | If the call that stored a delivered frame reports an error, the error is `LinkDown` and the link had left the epoch at an instant after the frame was stored, although it was up in it inside the delivery |
| `NetworkQueueProof.RunOk` | src/embassy.rs:101-263 | The ownership, epoch and log invariant behind these theorems survives every schedule of every number of threads from every state that has it |
| `NetworkQueueProgress.AnyFrameCanBeDelivered` | src/embassy.rs:331-390 | The safety results are not vacuous: for every frame that fits there is a schedule in which an RX callback is given exactly that frame |
| `NetworkQueueProgress.DeliveredAndRefused` | src/embassy.rs:467-485 | For every non-empty frame that fits there is a schedule in which it is delivered whole although its `push_rx` reports `LinkDown` |
| `NetworkQueueProgress.AnyFrameCanBeSubmitted` | src/embassy.rs:398-600 | For every frame that fits there is a schedule in which it is published, leased, read whole and the frame that was read is reported `Submitted` with the link up in its epoch |
| `NetworkQueueProgress.AnyFrameCanBeReportedLate` | src/embassy.rs:591-600 | For every frame that fits and either final outcome there is a schedule in which the frame is reported so at an instant when the link has left its epoch |
| `KeyWrap.UnwrapInvertsWrap` | src/wpa2.rs:1152-1194 | Unwrapping a wrapped key of two or more blocks gives it back, for every key and every cipher permutation; wrap is the independent definition of section 2.2.1 of RFC 3394 |
| `KeyWrap.AcceptedIsWrapped` | src/wpa2.rs:1152-1194 | Unwrap returns a plaintext if and only if the ciphertext is the wrap of that plaintext and it fits |
| `KeyWrap.WrapIsInjective` | src/wpa2.rs:2356-2380 | Different keys have different wraps |
| `KeyWrap.UnwrapBlock` | src/wpa2.rs:1167-1183 | One iteration of the loop, in place, is one unwrap step of the register A, R[1..n], and nothing past block n changes |
| `KeyWrap.UnwrapKeyBlocks` | src/wpa2.rs:1167-1183 | Six rounds down over all blocks, in place, undo the six wrap rounds |
| `KeyWrap.AesKeyUnwrap` | src/wpa2.rs:1152-1165 | The output holds the plaintext on success; on an integrity failure it holds only zeros; on a length error it is untouched; bytes past the plaintext never change |
| `EapolKey.BuildParses` | src/wpa2.rs:933-1096 | Whatever the supplicant builds, with version 1 or 2 and key data within the limit, parses back to every field and the key data, and its MIC verifies under the same key |
| `EapolKey.ResponseClasses` | src/wpa2.rs:1196-1253 | Messages 2 and 4 and group Message 2 classify as what they are |
| `EapolKey.Parse` | src/wpa2.rs:971-984 | An accepted frame keeps its bytes and meets the length and header conditions of section 12.7.2 of IEEE 802.11-2020 |
| `EapolKey.BuildResponse` | src/wpa2.rs:1256-1298 | The buffer written field by field holds the signed frame, zero beyond it, and too much key data is refused |
| `KeyMaterial.PtkIsSymmetric` | src/wpa2.rs:151-185 | Both ends of the handshake derive the same pairwise key |
| `KeyMaterial.DerivePtk` | src/wpa2.rs:151-185 | The block loop computes 48 bytes of the PRF over the ordered addresses and nonces |
| `KeyMaterial.GtkIsFound` | src/wpa2.rs:1098-1150 | Whatever elements precede it and whatever follows, the first well-formed GTK element is returned with its index and key |
| `KeyMaterial.FoundIsGtk` | src/wpa2.rs:1098-1150 | Conversely, accepted key data is a run of skipped elements, a GTK element with clear reserved bits, and a rest never read |
| `KeyMaterial.TakeKde` | src/wpa2.rs:1113-1136 | One element is read at the offset, and the offset moves just past it |
| `KeyMaterial.FindGtk` | src/wpa2.rs:1103-1111 | The loop over elements returns the first GTK or the first error |
| `KeyMaterial.GroupKeyOf` | src/wpa2.rs:885-899 | The group key of a frame is what unwrapping and searching its key data gives |
| `KeyMaterial.WrappedGtkArrives` | src/wpa2.rs:885-899 | A group key wrapped under the shared KEK inside any element list arrives unchanged |
| `SupplicantProof.NoKeyReinstallation` | src/wpa2.rs:587-801 | Between two restarts at most the first installation is pairwise, replay counters strictly increase over all of them, and each came from a frame whose MIC verified under the key derived from its handshake's nonces (sections 12.7.6 and 12.7.7 of IEEE 802.11-2020) |
| `SupplicantProof.NeverInstalledTwice` | src/wpa2.rs:482-536 | A frame that led to an installation never leads to another before the next restart, whatever happened in between |
| `SupplicantProof.RunInvariant` | src/wpa2.rs:389-417 | In every reachable state phase, pairwise key (equal to the derivation from the stored nonces), replay counters, ticket and digest agree |
| `SupplicantProof.ReachableInv` | src/wpa2.rs:389-417 | The full invariant over history and state holds after every sequence of inputs, completions and restarts |
| `SupplicantProof.InputOutcome` | src/wpa2.rs:482-536 | Every input fails the handshake, leaves it unchanged without an installation, begins it, or starts an installation from an authentic frame with a higher counter |
| `SupplicantProof.PendingFrameRepeated` | src/wpa2.rs:520-536 | While an installation is outstanding its frame again does nothing at all |
| `SupplicantProof.Message1Repeated` | src/wpa2.rs:624-641 | Message 1 again is answered by the same Message 2 |
| `SupplicantProof.Message3Repeated` | src/wpa2.rs:710-729 | With nothing outstanding and no group rekey completed, Message 3 again is answered by the same Message 4 and installs nothing |
| `SupplicantProof.Message3RepeatedAfterRekey` | src/wpa2.rs:710-729 | With nothing outstanding and a group rekey completed, the same Message 3 is a stale replay and fails the handshake |
| `SupplicantProof.GroupMessage1Repeated` | src/wpa2.rs:782-801 | The last group Message 1 again is answered by the same group Message 2 and installs nothing |
| `Retransmission.Message3Again` | src/wpa2.rs:520-536 | In every reachable completed handshake Message 3 again is answered if and only if no installation is outstanding and no rekey has completed, fails the handshake if and only if none is outstanding and one has completed, and is refused as busy while one is outstanding |
| `Retransmission.InstallFrameAgain` | src/wpa2.rs:520-536 | In every reachable live state the frame of any installation again installs nothing, is answered if and only if it is the newest one's, and otherwise is refused as busy while an installation is outstanding and is fatal if none is |
| `Retransmission.Message1Again` | src/wpa2.rs:587-641 | Message 1 again never changes the state; it is answered if and only if Message 3 is awaited, and later refused as busy or as needing a new nonce |
| `Retransmission.RekeyMakesMessage3Fatal` | src/wpa2.rs:710-729 | For every completed handshake and every conforming rekey, the Message 3 that was answered before is refused once the group key is requested and fatal once it is installed |
| `SupplicantProof.OnlyOutstandingCompletes` | src/wpa2.rs:539-585 | With at most 2^32-1 requests issued since, the request outstanding is the newest one, issued after the last failure or restart |
| `SupplicantProof.StaleRequestRefused` | src/wpa2.rs:567-585 | A pairwise request issued before a failure or restart is refused as stale and fails the handshake |
| `SupplicantProof.StaleGroupRequestRefused` | src/wpa2.rs:567-585 | The same for a group request |
| `Handshake.HandshakeCompletes` | src/wpa2.rs:482-708 | From every reachable state that waits for Message 1, a conforming authenticator with the same PMK brings the handshake to completion: one installation, of exactly the temporal key it derived from its own side and the group key it wrapped, and a Message 4 that verifies under its key |
| `Handshake.RekeyCompletes` | src/wpa2.rs:742-801 | From every reachable completed handshake, any number of times, a fresh group Message 1 installs exactly the group key sent and no pairwise key, and its answer verifies |
| `Handshake.Message1IsAnswered` | src/wpa2.rs:587-672 | The answer to Message 1 verifies under the key the authenticator derives from its own side |
| `Handshake.Message3IsAccepted` | src/wpa2.rs:674-740 | A Message 3 under that key with a larger counter requests exactly the keys it stands for, and Message 4 for afterwards |
| `Handshake.GroupMessage1IsAccepted` | src/wpa2.rs:742-780 | The same for a group Message 1 after completion |
| `Supplicant.Wpa2Supplicant.New` | src/wpa2.rs:421-452 | A supplicant is created if and only if the nonce is not zero and the RSN element is valid; the nonce is checked first and the fault of the element is reported as found |
| `RsnElement.ElementsAreAccepted` | src/wpa2.rs:1319-1394 | Every element of version 1 with group cipher CCMP, CCMP and PSK anywhere among its suites, and no management frame protection or PMKID is accepted (section 9.4.2.24 of IEEE 802.11-2020) |
| `RsnElement.AcceptedAreElements` | src/wpa2.rs:1319-1440 | Conversely, every accepted byte sequence is such an element |
| `Supplicant.Wpa2Supplicant.Receive` | src/wpa2.rs:482-518 | Source address, parse, message class, version and pending-install checks, in the source's order; the state machine whose runs `SupplicantProof` is about |
| `Supplicant.Wpa2Supplicant.ReceivePending` | src/wpa2.rs:520-536 | Only the outstanding frame again is tolerated |
| `Supplicant.Wpa2Supplicant.ReceiveMessage1` | src/wpa2.rs:587-659 | A first, repeated, restarting or stale Message 1 |
| `Supplicant.Wpa2Supplicant.ReceiveMessage3` | src/wpa2.rs:674-740 | Replay, MIC, nonce, flags and key data of Message 3, or its repetition after completion |
| `Supplicant.Wpa2Supplicant.ReceiveGroupMessage1` | src/wpa2.rs:742-801 | MIC, replay and flags of group Message 1, or its repetition |
| `Supplicant.Wpa2Supplicant.StartInstall` | src/wpa2.rs:803-809 | The state after an installation is requested: one ticket, one digest, one replay counter |
| `Supplicant.Wpa2Supplicant.AcceptCompletion` | src/wpa2.rs:567-585 | Only the outstanding ticket of the right kind is accepted, and only if the keys were installed |
| `Supplicant.Wpa2Supplicant.CompleteKeyInstall` | src/wpa2.rs:539-550 | Completion of the pairwise installation records counter and digest and returns Message 4 |
| `Supplicant.Wpa2Supplicant.CompleteGroupKeyInstall` | src/wpa2.rs:553-565 | Completion of a group installation records counter and digest and returns group Message 2 |
| `Supplicant.Wpa2Supplicant.RestartPairwise` | src/wpa2.rs:470-479 | A restart clears the handshake unless an installation is outstanding or the nonce is zero |
| `Supplicant.Wpa2Supplicant.ClearTransientState` | src/wpa2.rs:811-823 | Failure and restart forget key, nonces, counters, digests and ticket |
| `Station.StationController.AdvanceTime` | src/station.rs:245-259 | Time runs down the armed deadline; at zero the station faults with the state it was in |
| `Station.StationController.CompleteGroupRekey` | src/station.rs:305-318 | A rekey restores the link only of an authorized secure station |
| `Station.StationController.StartRecovery` | src/station.rs:321-327 | Recovery forgets interface, link flags and pending command |
| `Station.StationController.FinishRecovery` | src/station.rs:330-337 | The station is down, unlinked and without a fault |
| `Station.StationController.CreateInterface` | src/station.rs:340-388 | Interface 0 is claimed without a command; any other waits for its event |
| `Station.StationController.SetRegulatory` | src/station.rs:391-421 | The state to return to is remembered |
| `Station.StationController.BringUp` | src/station.rs:424-446 | Requires a created interface that is down |
| `Station.StationController.BringDown` | src/station.rs:449-476 | Accepted when idle, connected or faulted |
| `Station.StationController.StartScan` | src/station.rs:479-499 | Accepted when idle |
| `Station.StationController.RequestScanResults` | src/station.rs:502-522 | Accepted after a complete scan |
| `Station.StationController.Authenticate` | src/station.rs:525-546 | Remembers the peer |
| `Station.StationController.Associate` | src/station.rs:549-574 | Another peer than the authenticated one is a fault; an open network is authorized at once, a secure one is not |
| `Station.StationController.KeyCommand` | src/station.rs:577-609 | State and peer conditions of pairwise and group key commands |
| `Station.StationController.SetKey` | src/station.rs:612-632 | Accepted in the key exchange only |
| `Station.StationController.AuthorizePeer` | src/station.rs:635-658 | Accepted in the key exchange only, with a peer |
| `Station.StationController.SetPowerSave` | src/station.rs:661-683 | Returns to the state it came from |
| `Station.StationController.SetPowerSaveTimeout` | src/station.rs:688-715 | A negative timeout is refused |
| `Station.StationController.Disconnect` | src/station.rs:718-750 | Accepted from authentication on |
| `Station.StationController.HandleControlEvent` | src/station.rs:753-829 | Interface identity first, then dispatch by kind |
| `Station.StationController.HandleCommandStatus` | src/station.rs:1020-1059 | Only the pending command may be acknowledged; a rejection faults |
| `Station.StationController.ApplySuccessfulCommand` | src/station.rs:1061-1088 | What each acknowledgement moves; authorization is granted here only |
| `Station.StationController.HandleInterfaceState` | src/station.rs:831-852 | Up and down are expected or a fault |
| `Station.StationController.HandleRegulatoryChange` | src/station.rs:947-957 | Returns to the remembered state |
| `Station.StationController.HandleInterfaceCreated` | src/station.rs:999-1018 | The creation event, once, and one harmless duplicate |
| `Station.StationController.HandleScanDone` | src/station.rs:854-868 | Ends a scan |
| `Station.StationController.HandleScanResult` | src/station.rs:870-881 | The last result ends reading |
| `Station.StationController.HandleAuthentication` | src/station.rs:883-901 | Peer and status of the response |
| `Station.StationController.HandleAssociation` | src/station.rs:903-927 | Peer and status; a secure link goes to the key exchange |
| `Station.NonzeroResultProceeds` | src/station.rs:1227-1247 | On the response it waits for, a station with a nonzero result proceeds if and only if the result is a multiple of 65536, for authentication and association |
| `Station.TruncatedRejectionsProceed` | src/station.rs:1227-1247 | The results 65536 and -65536 proceed, whatever status the response itself carries |
| `Station.ZeroResultProceeds` | src/station.rs:1227-1247 | With a zero result the station proceeds if and only if the response's own status is there and zero |
| `Station.StationController.HandleDisconnectEvent` | src/station.rs:929-945 | The peer's disconnection clears the link |
| `Station.StationController.HandleDataEvent` | src/station.rs:960-997 | Carrier on may connect; carrier off in a connection faults |
| `Deadlines.NothingWaitsForever` | src/station.rs:245-259 | In every reachable state with a deadline the time left is within the configured bound, and while only time passes the driver enters recovery exactly when the elapsed times, however divided, add up to the time left |
| `Deadlines.AlwaysArmed` | src/station.rs:1090-1119 | After any sequence of calls a deadline is armed in exactly the states that have one |
| `Deadlines.TicksAddUp` | src/runtime.rs:498-506 | Splitting an interval over several timer calls changes nothing |
| `Driver.NativeWatchdogLeavesThePortOpen` | src/runtime.rs:682-696 | A watchdog check leaves the port open in a driver that is not ready if and only if the port was open and either the driver was not ready before or only sentinels were read |
| `Connection.OpensThePort` | src/production.rs:156-327 | From a new driver, recovery, the interface, authentication and association with any access point of an open network, and carrier, lead to a ready driver with an open port |
| `Connection.WatchdogFaultInARun` | src/runtime.rs:682-696 | In such a run a check that reads only sentinels leaves the port open in a faulted native driver |
| `ControlledPort.CarrierOpensExactly` | src/station.rs:968-973 | In every state, a carrier event opens the port if and only if it is for the station's interface and the station is authorized |
| `ControlledPort.PortOpensExactly` | src/station.rs:753-1088 | Of all calls of the production driver exactly these open a closed port: such a carrier event, the awaited association response of an authorized station with carrier, the acknowledged authorization with carrier, and the end of an operation begun with the port open, all in a ready driver |
| `ControlledPort.CarrierOpensEarlyExactly` | src/station.rs:968-973 | In every run of the production driver, a carrier event opens the port of a station that has not joined if and only if the driver is ready, the event is for its interface, and an open network has not answered the association yet, or an authorized station is being disconnected or brought down |
| `ControlledPort.ReachableIsAuthorizedOk` | src/station.rs:549-574 | In every run of the production driver an authorized station belongs to an open network and is associating, joined, disconnecting or being brought down |
| `ControlledPort.OpensBeforeTheResponse` | src/station.rs:968-973 | For every open network there is a run in which the port opens while the association is unanswered |
| `ControlledPort.EarlyCarrierThenResponse` | src/station.rs:903-927 | The response to the association then forces recovery and closes the port |
| `ControlledPort.ReopensWhileLeaving` | src/station.rs:968-973 | For every open network there are runs in which a disconnection, or bringing the interface down, closes the port and a carrier event opens it again before either is done |
| `ControlledPort.SecureReopens` | src/production.rs:664-729 | For every access point there is such a run of the integrated driver after a complete handshake |
| `Driver.NativeDriver.StartRecovery` | src/runtime.rs:247-251 | Recovery always clears the station |
| `Driver.NativeDriver.RunRecovery` | src/runtime.rs:272-349 | A recovery that reaches system initialization waits for it; one that fails ends in fault; either way the station is recovering |
| `Driver.NativeDriver.Tick` | src/runtime.rs:498-506 | A station timeout forces recovery |
| `Driver.NativeDriver.PollEvent` | src/runtime.rs:509-521 | Uncertain delivery forces recovery; other read errors change nothing |
| `Driver.NativeDriver.DispatchMessage` | src/runtime.rs:524-567 | System events in any state, others only when ready |
| `Driver.NativeDriver.DispatchSystemMessage` | src/runtime.rs:536-554 | Initialization makes the driver ready only when awaited; an unexpected one forces recovery |
| `Driver.NativeDriver.DispatchDataMessage` | src/runtime.rs:569-610 | Transmit-done, receive and carrier messages |
| `Driver.NativeDriver.ReceivePacket` | src/runtime.rs:621-649 | The interface is checked, then the port admits the EtherType or the packet is refused |
| `Driver.NativeDriver.TransmitFrame` | src/runtime.rs:652-679 | Interface, length and port are checked before the packet queue |
| `Driver.NativeDriver.ReadWatchdog` | src/runtime.rs:682-696 | Sentinel answers are not a status |
| `Driver.NativeDriver.ClearWatchdog` | src/runtime.rs:699-712 | An acknowledged watchdog forces recovery; a failed acknowledgement changes nothing at this layer |
| `Production.PortOpenOnlyWhenReady` | src/production.rs:397-457 | After any sequence of calls the port is open only if the driver is ready, and a driver that is not ready has no peer, authorization or carrier |
| `Production.PerformKeepsClosed` | src/production.rs:315-394 | Every call keeps a driver that is not ready closed |
| `Production.ErrorsChangeNothingOrRecover` | src/production.rs:427-457 | After an error either nothing changed, or the driver is recovering with the port closed and no station configured |
| `Production.WatchdogFaultRecovers` | src/production.rs:397-400 | The watchdog fault becomes recovery at this layer |
| `Production.BrokenReadRecovers` | src/production.rs:486-496 | Whatever bus error breaks the reading of an event, the native driver keeps its state and the production driver is in recovery with the port closed |
| `Production.TransmitExactly` | src/production.rs:381-394 | A frame reaches the packet queue if and only if the driver is ready, the interface is right and the port admits its EtherType |
| `Production.ReceiveExactly` | src/production.rs:330-378 | A packet reaches the caller if and only if the port admits it; otherwise the buffer is zero and nothing else changed |
| `Production.MissionCriticalDriver.Restore` | src/production.rs:156-172 | Recovery through the native driver |
| `Production.MissionCriticalDriver.FinishDriver` | src/production.rs:442-457 | Errors that need recovery get it, others pass |
| `Production.MissionCriticalDriver.StationCommand` | src/production.rs:427-440 | A station command, and recovery after a fault or hardware error |
| `Production.MissionCriticalDriver.Tick` | src/production.rs:315-318 | A deadline that expires forces recovery |
| `Production.MissionCriticalDriver.PollEvent` | src/production.rs:321-327 | Reading and applying one event |
| `Production.MissionCriticalDriver.ReceivePacket` | src/production.rs:330-378 | A rejected packet is wiped from the caller's buffer |
| `Production.MissionCriticalDriver.TransmitFrame` | src/production.rs:381-394 | Readiness, length and port before the native driver |
| `Production.MissionCriticalDriver.ReadWatchdog` | src/production.rs:397-400 | A failed or unreadable watchdog check forces recovery |
| `Production.MissionCriticalDriver.ClearWatchdog` | src/production.rs:403-406 | So does its acknowledgement, whether it is written or not |
| `Production.Wipe` | src/production.rs:342-378 | The copied bytes, and no others, are overwritten with zeros |
| `SecureRuntime.ErrorsFailClosed` | src/wpa2_runtime.rs:255-321 | Every error of the frame, control-event, transmit-done and time inputs leaves the runtime failed, both install slots empty, the driver recovering and the port closed |
| `SecureRuntime.FailIsClosed` | src/wpa2_runtime.rs:855-873 | The failure path itself does so from any state, and an outstanding installation fails the supplicant |
| `SecureRuntime.OutstandingOperationIsUndisturbed` | src/wpa2_runtime.rs:289-336 | While a radio operation is outstanding its frame again is ignored without extending the deadline; any other frame is fatal |
| `SecureRuntime.Wpa2Runtime.FailNow` | src/wpa2_runtime.rs:855-873 | Reports outstanding installations as failed, then forces recovery |
| `SecureRuntime.Wpa2Runtime.AdvanceTime` | src/wpa2_runtime.rs:255-271 | The runtime deadline |
| `SecureRuntime.Wpa2Runtime.RestartPairwise` | src/wpa2_runtime.rs:279-286 | A restart of the supplicant clears the runtime's record of its last input |
| `SecureRuntime.Wpa2Runtime.RefreshCarrier` | src/wpa2_runtime.rs:696-706 | Completes when the station is connected |
| `SecureRuntime.Wpa2Runtime.SendKey` | src/wpa2_runtime.rs:744-789 | Submits the next key command, or fails without a request |
| `SecureRuntime.Wpa2Runtime.SendEapol` | src/wpa2_runtime.rs:791-813 | Submits a response and remembers its token |
| `SecureRuntime.Wpa2Runtime.ReceiveFrame` | src/wpa2_runtime.rs:289-321 | Header checks, repetition of an outstanding input, then the supplicant |
| `SecureRuntime.Wpa2Runtime.DispatchAction` | src/wpa2_runtime.rs:338-398 | What follows each supplicant action |
| `SecureRuntime.Wpa2Runtime.ReceiveControl` | src/wpa2_runtime.rs:401-437 | Acknowledgements of the runtime's own commands |
| `SecureRuntime.Wpa2Runtime.DispatchStatus` | src/wpa2_runtime.rs:439-545 | Which acknowledgement advances which state |
| `SecureRuntime.Wpa2Runtime.NextKey` | src/wpa2_runtime.rs:493-506 | The expected acknowledgement submits the next key |
| `SecureRuntime.Wpa2Runtime.FinishInstall` | src/wpa2_runtime.rs:562-598 | Completes the installation and transmits the response |
| `SecureRuntime.Wpa2Runtime.ReceiveTransmitDone` | src/wpa2_runtime.rs:601-638 | Only the awaited token, and only with success |
| `SecureRuntime.Wpa2Runtime.DispatchPurpose` | src/wpa2_runtime.rs:640-693 | What follows each transmitted response; Message 4 leads to authorization |
| `SecureDriver.AuthorizedOnlyAfterTheMilestones` | src/production.rs:697-729 | If no earlier Message 4 was on its way when it associated, a secure station is authorized only after, in this order and since the association: pairwise key submitted, its acknowledgement, the group key's, the default key's with Message 4 submitted, the successful transmit-done of that token, and the acknowledgement of the authorization |
| `SecureDriver.PortOpenOnlyWhenSecured` | src/production.rs:596-779 | In every run of the integrated driver the port is open only if the driver is ready, and that of a secure station that associated while no Message 4 was on its way only after all six milestones since the association |
| `SecureDriver.MilestonesEver` | src/production.rs:697-729 | In every run, whatever was on its way, a secure station is authorized only after the same coordinator has seen the six milestones in order at some time |
| `SecureDriver.CleanAtFirst` | src/wpa2_runtime.rs:640-693 | No Message 4 is on its way at the first secure association that a coordinator sees |
| `SecureDriver.StaleKeeps` | src/production.rs:681-729 | A coordinator that awaits a key acknowledgement from before the association authorizes nothing: it stays so, fails or starts afresh |
| `SecureDriver.ReachableIsHanded` | src/production.rs:603-612 | Every state the production driver reaches on its own may be handed to a new coordinator |
| `SecureDriver.LeftIsHanded` | src/production.rs:635-637 | A driver that a coordinator leaves may be handed on if and only if no secure station is authorized or about to be |
| `SecondAssociation.EarnestExactly` | src/production.rs:630-632 | From any secure association in any run of a coordinator on the driver's interface, until the next one: in every continuation a secure station is authorized only after the six milestones since the association, if and only if no earlier Message 4 was on its way at the association |
| `SecondAssociation.CarriedMessage4Authorizes` | src/wpa2_runtime.rs:640-693 | From every such association with a Message 4 on its way there is a continuation that opens the port without the milestones |
| `SecondAssociation.PortOpensUnearned` | src/production.rs:664-729 | For every access point there is a run from a new driver that ends so: it disconnects while Message 4 is on its way and takes the station back |
| `SecureDriver.NextKeeps` | src/production.rs:646-779 | The invariant that ties runtime state, station flags and the log of events survives every call, direct ones included |
| `SecureDriver.MakeKeeps` | src/wpa2_runtime.rs:439-693 | Every call keeps the milestones earned by runtime and station |
| `SecureDriver.EapolIsWiped` | src/production.rs:732-768 | Received EAPOL packets and packets the port rejects never stay in the caller's buffer |
| `SecureProgress.SecureConnectionOpensThePort` | src/production.rs:664-768 | From the key exchange of any secure association, any conforming access point and firmware that acknowledges bring the integrated driver to an open port with the shared pairwise key, in one association |
| `SecureProgress.SecureConnectionFromANewDriver` | src/production.rs:156-768 | The port conditions of a secure station are attainable: the same from a new driver, through recovery, the interface, authentication and association, with any conforming access point |
| `SecureDriver.Wpa2StationDriver.RestartPairwise` | src/production.rs:646-653 | Passes a restart to the runtime |
| `SecureDriver.Wpa2StationDriver.AdvanceTime` | src/production.rs:656-661 | Driver deadline first, then the runtime's |
| `SecureDriver.Wpa2StationDriver.Poll` | src/production.rs:664-679 | One event, applied to the driver and then to the runtime |
| `SecureDriver.Wpa2StationDriver.ApplySecurityEvent` | src/production.rs:681-729 | Unexpected acknowledgements and transmit-dones do not reach the runtime |
| `SecureDriver.Wpa2StationDriver.ReceivePacket` | src/production.rs:732-768 | EAPOL goes to the runtime and is wiped, other packets to the caller |
| `SecureDriver.Wpa2StationDriver.TransmitFrame` | src/production.rs:771-779 | Normal transmission |
| `CommandQueue.SendIsAllOrNothing` | src/device.rs:315-426 | Over a bus that may fail at any step: success means firmware got exactly the fragments of the message in order, each taken, written, enqueued and triggered once; an error means firmware saw nothing or recovery is required |
| `CommandQueue.DeliveryIsExact` | src/device.rs:446-467 | The posted fragments of a delivery concatenate to the message, one trigger each |
| `CommandQueue.FirmwareGotWhatWasReported` | src/device.rs:315-467 | Over any sequence of sends firmware was given the messages reported as sent, whole and in order, followed by nothing unless recovery is required |
| `CommandQueue.SinceRepairIsExact` | src/device.rs:184-467 | Over any run of sends, resets, initializations and limit changes: since the last reset or initialization firmware was given the messages reported as sent since then, whole and in order, followed by nothing unless recovery is required |
| `CommandQueue.NothingPostedUntilRepair` | src/device.rs:184-275 | Once recovery is required no call of a run puts anything on the bus or reports a message as sent until the queues are reset or initialized again |
| `CommandQueue.NoTrafficBeforeRecovery` | src/device.rs:233-245 | One call: while recovery is required no send touches the bus |
| `EventQueue.EventsAreExact` | src/device.rs:566-816 | Over any schedule of polls, arrivals, buffer changes and discards, every event that has ended met in order the one fate it deserves: undersized if and only if shorter than a header, else too large if and only if longer than the buffer its first fragment was read with, else dropped if and only if it was discarded or its buffer changed while pending, else delivered byte for byte; with nothing pending the queue head is a message start; and the buffers given back are those taken, each once |
| `EventQueue.NoEventIsLost` | src/device.rs:566-816 | With one buffer of any size and no discards every event of a legal length that fits is delivered, whatever the schedule, and the others are reported |
| `EventQueue.AbsorbIsExact` | src/device.rs:578-804 | From any aligned state one call takes exactly the fragments of the events it ends and stops aligned |
| `EventBus.DoneIsTryRead` | src/device.rs:566-816 | A call that reports no bus error did exactly what it does over a sound bus, and over a sound bus none is reported |
| `EventBus.SurvivesExactly` | src/device.rs:592-673 | Whatever operation of a read fails: device and firmware agree on the stream afterwards if and only if the failure came before a fragment of the pending event was dequeued, or past that event and with no fragment or only a single-fragment event dequeued; and at most the last buffer taken is not given back |
| `EventBus.SurvivesEveryError` | src/device.rs:592-708 | From the state before a read: device and firmware agree afterwards whatever the bus does, if and only if the buffer changed, no fragment is ready, or no event is pending and the next one is a single fragment |
| `EventBus.NextReadSurvives` | src/device.rs:566-816 | The same of every read of every run without harm so far |
| `EventBus.RobustErrorsKeepAligned` | src/device.rs:566-816 | Over every run in which bus errors are met only in such states, device, firmware and buffer agree throughout |
| `EventBus.AlignedExactlyWithoutHarm` | src/device.rs:566-816 | Over every run of reads and discards with bus errors anywhere they agree throughout if and only if every error was one of `SurvivesExactly` |
| `EventBus.ReadsAreExact` | src/device.rs:566-816 | Until an error of the other kind, a read without error is exact: whole events byte for byte, every event it passes accounted for |
| `EventBus.BrokenReadMixesEvents` | src/device.rs:592-614 | From an event of which one of three fragments was read: when the acknowledgement fails after the second, the next call delivers the first and third fragment and the start of the next event as one event |
| `EventBus.EventsAreMixedInARun` | src/device.rs:566-816 | The failing input as a run from the start, for every event of three fragments and every event behind it: a sound read, the failing one, and a sound one that delivers the mixture |
| `EventBus.DeliveredParses` | src/protocol.rs:115-131 | A delivered event parses if and only if its type is known, to the header of its first fragment and all that follows |
| `Device.Device.ResetQueueState` | src/device.rs:184-191 | Clears queues, counter, pending event and the recovery flag |
| `Device.Device.InitializeQueues` | src/device.rs:252-275 | Clears the recovery flag only after a valid queue map was read |
| `Device.Device.SetFragmentLimits` | src/device.rs:204-217 | Limits outside the firmware's bounds are refused |
| `Device.Device.Dequeue` | src/device.rs:829-844 | Zero is an empty queue, the sentinel address is an error, and a taken address is written back |
| `Device.Device.PostFragment` | src/device.rs:446-467 | Write, enqueue, trigger; a failure at any of them requires recovery |
| `Device.Device.WaitForBuffer` | src/device.rs:388-426 | Polls for a buffer; a timeout after a post requires recovery |
| `Device.Device.SendWithWait` | src/device.rs:331-386 | The fragment loop, without losing track of what firmware was given |
| `Device.Device.SendOnce` | src/device.rs:315-324 | One fragment without waiting |
| `Device.Device.TryReadEvent` | src/device.rs:566-632 | Refused until operational; a changed buffer turns the pending event into a discarded one; otherwise the pending event is continued or a new one started over the failing bus, and a whole message parsed as in src/protocol.rs:115-131 |
| `Device.Device.ReadNewEvent` | src/device.rs:675-816 | First fragment, header, length checks, release and acknowledgement, up to the first bus operation that fails |
| `Device.Device.ContinuePendingEvent` | src/device.rs:605-632 | The pending event is drained and acknowledged; a whole one is delivered, and one that was discarded is followed by a new event |
| `Device.Device.DrainPending` | src/device.rs:634-673 | Takes fragments until the event is complete, the queue is empty or the bus fails |
| `Device.Device.TakePending` | src/device.rs:652-673 | One fragment of the pending event is dequeued, copied and given back, and what each failing operation leaves |
| `Device.Device.DiscardPendingEvent` | src/device.rs:223-231 | Keeps the count so the rest of the event can be skipped |
| `Conversion.MpduRoundTrip` | src/data.rs:841-853 | Converting the MPDU encapsulation of a frame in any of the four To-DS/From-DS modes gives back addresses, type and payload if and only if the EtherType is at least 0x0600 (section 9.3.2.1 of IEEE 802.11-2020) |
| `Conversion.MsduRoundTrip` | src/data.rs:855-873 | The same for both MSDU forms |
| `Conversion.PanicsExactly` | src/data.rs:841-853 | Conversion ends by an index panic if and only if the payload is an MPDU of fewer than two bytes behind a MAC header of 24 or more; otherwise it gives a frame or an error |
| `Conversion.ConvertToEthernet` | src/data.rs:829-839 | The frame is rewritten at the front of its buffer; bytes past it and, on an error, all bytes are unchanged |
| `Conversion.ConvertMpduInPlace` | src/data.rs:841-853 | The MPDU case, in place |
| `Conversion.ConvertMsduInPlace` | src/data.rs:855-873 | The MSDU case, in place |
| `Conversion.RebuildEthernet` | src/data.rs:940-962 | The payload is moved to the front byte by byte in place, none overwritten before it is read, bytes past the frame stay, and a frame that would grow is refused |
| `PacketRam.SlotsAreInside` | src/data.rs:299-411 | For every geometry accepted every RX, TX and command slot is word aligned, RX and TX slots are inside packet RAM, command slots end before the packet data, and no address overflows 32 bits |
| `PacketRam.SlotsAreApart` | src/data.rs:299-411 | No two slots of any kind overlap |
| `PacketRam.TransfersStayInside` | src/data.rs:735-795 | Every word-padded frame write, packet read and command write stays inside its own slot |
| `DataPath.FreeIsNeverOwned` | src/data.rs:417-662 | Over every run of posts, transmissions, completions, receptions and resets, with bus failures at any step, what the host treats as free firmware does not own |
| `DataPath.NextIsOwned` | src/data.rs:417-662 | Each call keeps it |
| `DataPath.ReserveIsFirstFree` | src/data.rs:652-662 | The token reserved is the first free one cyclically from `next_tx`, and there is none exactly when all are in flight |
| `DataPath.NoTokenExactlyWhenAllBusy` | src/data.rs:569-605 | On an initialized device a valid frame gets no token if and only if every token is in flight |
| `DataPath.UninitializedTransmitLosesAToken` | src/data.rs:607-637 | The failing input: on a device not initialized a valid frame costs a free token |
| `DataPath.ExactlyOwned` | src/data.rs:417-662 | Of all calls exactly those lose a token; none loses a descriptor |
| `DataPath.OnlyThatLosesAToken` | src/data.rs:417-662 | Over every run, with bus failures at any step, the tokens in flight are exactly those firmware may own if and only if no such call was made since the last reset; the posted descriptors are exactly those firmware may own always |
| `DataPath.DataPath.ResetAfterRpuReset` | src/data.rs:417-421 | All tokens and descriptors are the host's again |
| `DataPath.DataPath.PostDescriptor` | src/data.rs:440-477 | A descriptor is marked posted unless a step before the queue failed |
| `DataPath.DataPath.PostAllRx` | src/data.rs:424-437 | Succeeds exactly when every unposted descriptor can be posted; never unmarks one |
| `DataPath.DataPath.ReserveTx` | src/data.rs:652-662 | The cyclic search loop |
| `DataPath.DataPath.TransmitFrame` | src/data.rs:569-637 | Which failures give the token back and which leave it in flight |
| `DataPath.DataPath.Complete` | src/data.rs:640-650 | Only an in-flight token can be completed |
| `DataPath.DataPath.ReceivePacket` | src/data.rs:480-566 | The packet is read into the caller's buffer and converted there; the contract gives the whole buffer on every path, and the descriptor is reposted on every path but the panic of the conversion |
| `Spi.SpiTransport.Write` | src/bus.rs:262-282 | A write in frames of at most 4096 bytes, up to the first transaction that fails, changes exactly a prefix of its range to the data, and all of it if none fails |
| `Spi.SpiTransport.Read` | src/bus.rs:250-260 | Over a range of constant latency a read without a failing transaction returns the bytes of memory, under either preset, and bytes outside the range stay |
| `Spi.SpiTransport.ReadUnits` | src/bus.rs:288-309 | Incrementing and word-at-a-time transfers put the pieces in place |
| `Spi.SpiTransport.ReadOne` | src/bus.rs:311-344 | The data start after header and latency words |
| `Spi.AnswerData` | src/bus.rs:117-175 | The bytes after the latency words are those at the address |
| `Memory.TranslatedIffMapped` | src/memory.rs:137-181 | An address is translated if and only if it lies in a region of the processor, and then by that region's base |
| `Memory.HostOffsetIsInjective` | src/memory.rs:137-181 | Two addresses of one processor never share a host offset |
| `Memory.RegionLatency` | src/bus.rs:125-175 | Read latency is constant across every mapped region, for both presets |
| `Memory.RegionIsFlat` | src/memory.rs:137-181 | Inside one region consecutive addresses are consecutive for the host, at one latency |
| `Memory.GapIsAccepted` | src/memory.rs:485-515 | An access whose ends lie in two regions is accepted across unmapped addresses |
| `Memory.AcceptedEnds` | src/memory.rs:485-515 | An aligned non-empty access is accepted if and only if its ends lie in two regions, perhaps the same one, with the same base |
| `Memory.AcceptedTouchesOnlyMapped` | src/memory.rs:485-523 | An accepted access touches mapped addresses only if and only if one region holds both its ends |
| `Memory.OneRegionIsValid` | src/memory.rs:517-523 | Every aligned non-empty access inside one region is accepted |
| `Memory.WrittenIsRead` | src/memory.rs:340-356 | A padded write gives the data back, zeros up to the word, and leaves all else |
| `Memory.Rpu.Write` | src/memory.rs:314-356 | A refused write changes nothing. An accepted one changes exactly a prefix of the padded range, counted from the host offset of its start, to the data and zeros; over a healthy bus it succeeds if and only if the chunks start at mapped addresses, which they do inside one region |
| `Memory.Rpu.Read` | src/memory.rs:262-307 | A refused read leaves the buffer. An accepted one that succeeds over a range of constant latency returns the bytes from the host offset of its start on; over a healthy bus it succeeds if and only if the chunks start at mapped addresses, and inside one region both hold |
| `Memory.WriteThenRead` | src/memory.rs:262-356 | Inside one region and over a healthy bus a read after a write returns the data, under either preset |
| `Firmware.BundlesAreAccepted` | src/firmware.rs:204-217 | Every file made of the pinned header and four images of distinct kinds in any order, filling the payload, is accepted |
| `Firmware.AcceptedAreBundles` | src/firmware.rs:204-338 | Every accepted file is such a file |
| `Firmware.ImageReturnsItsBody` | src/firmware.rs:248-261 | On an accepted file `image` returns exactly the body of the kind asked for |
| `Firmware.EveryKindIsFound` | src/firmware.rs:248-261 | On an accepted file every kind is found |
| `Firmware.Parse` | src/firmware.rs:204-217 | The first fault in the order length, header, payload, images |
| `Firmware.ValidateImages` | src/firmware.rs:281-297 | The bit set of kinds and the offset accept what the recursive definition accepts |
| `Firmware.FindImage` | src/firmware.rs:248-261 | The search loop stops at the first image of the kind |

## Left out

- AES, SHA, HMAC and PBKDF2 are uninterpreted functions; `Pmk::derive` (src/wpa2.rs:139) is not modelled.
- Zeroization of dropped secrets, except where a buffer visible to the caller is wiped.
- Wakers, `Context` and `Poll`, futures and weak memory orders: the network queue takes sequentially consistent atomic steps.
- The network queue's epoch is unbounded; after 2^N link changes the source's counter wraps and an old token could match.
- Frames of length zero are indistinguishable from no frame for both callbacks, so the exactness results speak of non-empty bytes.
- The native driver's own station commands (src/runtime.rs:352-480) are not modelled; the production driver's, which call the station directly, are.
- Scan, regulatory and power-save payloads, and the encoders and decoders of src/control.rs, src/protocol.rs and src/codec.rs: messages have abstract outcomes and declared lengths.
- Which interface identity an `InterfaceMismatch` fault reports.
- EventQueue.EventsAreExact: states constant fragment limits, because changing them while an event is pending changes how many bytes firmware's fragments carry.
- Spi.SpiTransport.Read: states the bytes for the two Nordic presets only; other latency settings, status registers and wiping of the transfer buffer are left out.
- Memory.Rpu.Read: states no contents for an accepted access whose latency changes on the way, as across the gap of `GapIsAccepted`.
- Trust policies, digests, processor reset, download and boot (src/firmware.rs:47-130, 352-523), clocks, `Platform` and src/system.rs.
