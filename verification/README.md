# Advanced Security agent: a verified model

The Advanced Security agent runs on a gateway, collects WiFi data for a security
agent on the other side of a datagram socket, and follows remotely set features.
This project models its three stateful parts and proves what they promise.

- **The WiFi data-collection consumer** (`cujoagent_dcl_api.c`): RBUS callbacks
  push events onto a locked queue; a consumer thread turns them into TLVs; a comms
  thread sends the TLVs; up to N L1 collector threads come and go; a deinit call
  stops everything. `Dcl*.dfy` is that protocol as a state machine with one program
  counter per thread; `DclRuns.dfy`, `DclSendRuns.dfy` and
  `DclEventRuns.dfy` have what holds over all its runs. The
  sequential algorithms on top of it are classes and loops: the L1 table
  (`L1Slots`), the interface table (`InterfaceTable`), the associated-device maps
  (`HashMaps`, `AssociatedDevices`), the station event (`StationEvent`), diff
  documents (`DiffWork`, `DiffProcessing`), TLV framing (`TlvFraming`), MAC strings
  (`MacAddress`), temperature rounds (`Temperature`).
- **Feature and event state machines** (`cosa_adv_security_internal.c`): the logger
  countdown, the bridge-mode handler, the staged application of a feature blob.
- **The webconfig document decoder** (`advsecurity_param.c`,
  `advsecurity_helpers.c`): `MsgpackObjects`, `DocumentParams`, `DocumentDecoder`.

`dafny verify dfyconfig.toml` checks the whole project.

## How the protocol is modelled

`DclState` holds the state, `DclSteps` one relation per thread, taken over from the
code's loops:

- `LoopStep`: `cujoagent_consumer_queue_loop`, source/AdvSecurityDml/cujoagent_dcl_api.c:2754-2812
- `DeviceStep`: stopping a leaving station's collector, lines 2134-2162
- `EmitStep`: the `comms_ready` checks and `cujoagent_emit_event_tlv`, lines 612-668, 2164-2204
- `SocketStep`: the comms thread, lines 1068-1232
- `StartStep`: `cujoagent_start_l1_collection`, lines 942-1066
- `CollectStep`, `DonePushStep`: `cujoagent_l1_collector`, lines 707-940
- `PusherStep`: `cujoagent_push_to_consumer_queue`, lines 568-600
- `DeinitStep`: `cujoagent_wifidatacollection_deinit`, lines 3421-3471

An eventfd is a counter that adds on write and clears on read. A wait may time out at
any moment. Mutexes, condition variable (with spurious wakeups), single-slot `tlv_ctx`,
queue and table are as in the code; results of foreign calls are free choices. N is
the length of the slot table, the radio count a parameter. `epoll_wait` and the reads
it leads to are one step: a write by another thread between the two could as well
have come before. `queued`, `direct`, `stopRead`, `byDeinit`, `emits`, `sends`, `pushed`,
`popped` and `log` are histories; no step depends on them.

## What was found

- **Gating.** After a failed handoff an emit can be attempted although no VERSION was
  sent since: a HELLO answered before the failure, whose handler is waiting for the
  consumer lock while the handoff fails, reopens the gate
  (`DclWitness.HelloInHandReopensTheGate` is such a run). This is the only way:
  `DclRuns.RunsReopenExactly` is an equivalence over all runs.
- **Handoff.** After one timed-out wait the answer to the old TLV can be taken for that
  to the next one. An emit then reports success for a TLV that is not sent, and a later
  TLV can slip in between the comms thread's size check and its sendto
  (`DclWitness.StaleAnswerSendsUnchecked`). Both are characterised exactly, by what an
  emit finds when it begins (`DclSendRuns.RunsSucceedUnsentIff`) and by what replaced the
  checked TLV (`DclSendRuns.RunsSendFramed`).
- **Tokens add up.** A READY left unread and the next one are read as their sum. The sum
  can be STOP, and the comms thread leaves without being asked to
  (`DclWitness.AddedTokensStopComms`, `DclNotes.RunsReadStopIff`).
- **DONE.** One collector can have two DONE requests: when disconnect processing finds it
  and it pushes its own all the same, because its stop could not be written or was not
  acknowledged in time (`DclWitness.UnwrittenStopDoublesDone`,
  `DclWitness.TimedOutStopDoublesDone`). `DclRuns.RunsRequestDoneOnceIff` is exact.
- **Temperature.** If the event for a complete round cannot be allocated, the counter
  is not reset, overshoots, and nothing is emitted until the next L1 DONE or until the
  32-bit counter has gone round (`Temperature.StarvedUntilDone`).
- **Feature blob.** Fingerprinting is switched before its store write. If that write
  fails, the flag and the store differ, and trying the blob again writes nothing
  (`FeatureBlob.LostFingerPrintWriteStaysLost`). A blob that disables fingerprinting
  cannot be reapplied: the second time it is refused.
- **Bridge mode.** A failed command is retried by the next event with the same value
  in all cases, also when other values were recorded in between.
- **Decoder.** `match` is bounded by the key's size, so every prefix of a name matches
  it, and an empty key matches every name (`DocumentParams.EmptyKeyHitsAll`). Fields
  after the second required one are not read (`DocumentParams.EarlyExitDropsFields`).

## Model

| member | source | states |
|---|---|---|
| DclLocks.L1HolderAsksForNothing | source/AdvSecurityDml/cujoagent_dcl_api.c:901-934 | the documented lock order: whoever holds `l1_lock` asks for neither mutex |
| DclLocks.NoMutexCycle | source/AdvSecurityDml/cujoagent_dcl_api.c:2137-2162 | no threads, however many, wait for each other's mutexes in a circle |
| DclRuns.RunsHaveNoMutexCycle | source/AdvSecurityDml/cujoagent_dcl_api.c:3437-3461 | in every state of every run, deinit included, there is no cycle of mutex-blocked threads |
| DclRuns.RunsNeverStick | source/AdvSecurityDml/cujoagent_dcl_api.c:2139-2162 | in every reachable state in which a mutex is held, a thread that holds one can take a step |
| DclRuns.AttemptsNeedReady | source/AdvSecurityDml/cujoagent_dcl_api.c:2164-2204 | every event-TLV attempt of every run happens with `comms_ready` true |
| DclRuns.RunsAreGated | source/AdvSecurityDml/cujoagent_dcl_api.c:650-663 | after a failed handoff no attempt before `comms_ready` was set again, and none before a later HELLO was answered with VERSION, unless a HELLO was in hand at the failure |
| DclRuns.RunsReopenExactly | source/AdvSecurityDml/cujoagent_dcl_api.c:1213-1231 | for every failure of every run and the first time `comms_ready` is set after it: a VERSION was sent in between if and only if no HELLO was in hand at the failure |
| DclWitness.HelloInHandReopensTheGate | source/AdvSecurityDml/cujoagent_dcl_api.c:1213-1231 | a complete run in which an attempt follows a failure with no VERSION in between |
| DclRuns.RunsKeepTheQueue | source/AdvSecurityDml/cujoagent_dcl_api.c:568-600 | what was taken and what is queued is what was pushed, in push order; with the lock free, queued events keep `queue_wakeup` up and a sleeping consumer has a signal coming |
| DclRuns.RunsLoseNoWakeup | source/AdvSecurityDml/cujoagent_dcl_api.c:2754-2812 | in every reachable state with the lock free, something queued and no exit asked for, the next event can be taken: by three steps of the consumer, after one by a thread about to signal if the consumer sleeps |
| DclQueue.SignalStaysPending | source/AdvSecurityDml/cujoagent_dcl_api.c:593-597 | a signal that is about to be given survives every step of every other thread |
| DclRuns.RunsStopAtExit | source/AdvSecurityDml/cujoagent_dcl_api.c:3457-3462 | once `exit_consumer` is set it stays set and no further event is processed |
| DclEventRuns.RunsAttemptWhatWasTaken | source/AdvSecurityDml/cujoagent_dcl_api.c:2765-2800 | over all runs, at every attempted TLV the event taken last is a frame iff the TLV is a data batch, a CSI sample iff CSI data, a temperature iff temperature data, a pushed DONE iff a DONE of its own, and a diff iff it is about a device, which is then one of that diff; other documents lead to no attempt |
| DclEventRuns.RunsBuildTlv | source/AdvSecurityDml/cujoagent_dcl_api.c:634-648 | over all runs, the TLV built for an attempt has the tag that belongs to it, the payload, its length modulo 2^16 and the size with a 4-byte header |
| DclEventRuns.RunsEndEmit | source/AdvSecurityDml/cujoagent_dcl_api.c:2196-2243 | over all runs, an emit that succeeds hands over what is in `tlv_ctx` and leads from DONE to the station update of the same device, from that to its radio update, and then to the next device; a failed one, or a gate with `comms_ready` false, leads to the next device at once; a failed handoff clears `comms_ready` |
| DclEventRuns.RunsSkipNoDevice | source/AdvSecurityDml/cujoagent_dcl_api.c:2104-2247 | over all runs, while a diff is processed the devices still to do stay the same or lose exactly the first; the diff is left only when none is left |
| DclEventRuns.RunsKnowWhenReady | source/AdvSecurityDml/cujoagent_dcl_api.c:1213-1231 | in every reachable state `comms_ready` is set iff it was set once and no handoff failed since |
| DclEventRuns.RunsDeinitTellsAll | source/AdvSecurityDml/cujoagent_dcl_api.c:3437-3462 | in every reachable state new collections are refused iff deinit has finished its scan, and then its scan has been at every registered collector to stop it; `exit_consumer` is set iff deinit has passed the place where it sets it |
| L1Slots.Table.Start | source/AdvSecurityDml/cujoagent_dcl_api.c:955-1029 | a start takes the first free slot, or leaves the table as it is when disabled, in progress, full or out of resources |
| L1Slots.AdmittedIff | source/AdvSecurityDml/cujoagent_dcl_api.c:955-985 | a start is given a slot iff starts are allowed, some slot is free and no registered collector has the MAC; it is the lowest free one |
| L1Slots.Table.Remove | source/AdvSecurityDml/cujoagent_dcl_api.c:928-933 | exactly the first slot that points to the collector is cleared |
| DclRuns.RunsKeepTheTable | source/AdvSecurityDml/cujoagent_dcl_api.c:942-1066 | over all interleavings occupied slots point to collectors not yet freed, carry pairwise distinct MACs, and the table never grows |
| DclTable.StartOutcome | source/AdvSecurityDml/cujoagent_dcl_api.c:959-985 | a rejected start changes no slot and no collector; an accepted one has a MAC no live collector has and disturbs no other slot |
| DclTable.FreedLeftFirst | source/AdvSecurityDml/cujoagent_dcl_api.c:918-935 | a collector about to be freed is in no slot |
| DclRuns.RunsEndByEitherBranch | source/AdvSecurityDml/cujoagent_dcl_api.c:864-909 | in every run a collector that is gone pushed exactly one DONE, unless it left by the branch for STOP, and then it pushed none and had been found by disconnect processing or deinit |
| DclEventRuns.RunsStopReadMeansNoPush | source/AdvSecurityDml/cujoagent_dcl_api.c:864-909 | in every run a collector that reads exactly STOP never pushes a DONE; one that reads anything else has pushed exactly one by the time it is gone |
| DclRuns.RunsRequestDone | source/AdvSecurityDml/cujoagent_dcl_api.c:896-909 | every collector that is gone and was not stopped by deinit has had at least one DONE requested |
| DclRuns.RunsRequestDoneOnceIff | source/AdvSecurityDml/cujoagent_dcl_api.c:2134-2192 | timeouts and failed writes included, exactly one DONE was requested for it if and only if it was never found, or found once and left by the branch for STOP |
| DclRuns.RunsRequestDoneOnce | source/AdvSecurityDml/cujoagent_dcl_api.c:2134-2192 | exactly one for every collector deinit did not stop, in runs in which the consumer's stops are all written and acknowledged, whatever deinit does |
| DclRuns.RunsAccountForDone | source/AdvSecurityDml/cujoagent_dcl_api.c:2620-2647 | in every run and for every collector, its pushed and direct DONE requests are, one for one, still queued, in the consumer's hand, passed to emit, or dropped by a gate with `comms_ready` false |
| DclWitness.TimedOutStopDoublesDone | source/AdvSecurityDml/cujoagent_dcl_api.c:2151-2161 | a complete run in which a timed-out stop leads to two DONE requests for one collector |
| DclWitness.UnwrittenStopDoublesDone | source/AdvSecurityDml/cujoagent_dcl_api.c:2151-2161 | a complete run in which a STOP that cannot be written does |
| DclRuns.RunsNeverConfuseTokens | source/AdvSecurityDml/cujoagent_dcl_api.c:454-500 | in every run before deinit without timeouts: an emit's wait finds only the SENT of its own TLV, a stop's wait only the RETURN of its own collector, the comms thread only the READY of the emit that waits |
| DclRuns.RunsHandOffFaithfully | source/AdvSecurityDml/cujoagent_dcl_api.c:612-668 | in every run before deinit without timeouts: `tlv_ctx` is read only while the emit that filled it waits, one send per successful emit, in emit order with the same tag and payload, and only TLVs whose length field is true |
| DclSendRuns.RunsSucceedUnsentIff | source/AdvSecurityDml/cujoagent_dcl_api.c:650-668 | in every reachable state in which an emit is about to begin, timeouts before it included: it can go on, deinit keeping still, to report success with nothing sent if and only if the SENT of its tag is left over or about to be completed by a late answer |
| DclSendRuns.RunsSucceedUnsentUnderThreat | source/AdvSecurityDml/cujoagent_dcl_api.c:454-500 | whatever deinit does meanwhile, an emit that reports success with nothing sent began with such an answer there or in the making |
| DclSendRuns.RunsSendWhatSucceeds | source/AdvSecurityDml/cujoagent_dcl_api.c:612-668 | in every run, timeouts and deinit included, in which no emit begins that way, the successful emits are a subsequence of the sends |
| DclSendRuns.RunsFindOwnTlv | source/AdvSecurityDml/cujoagent_dcl_api.c:1166-1199 | in every run in which emits begin with no earlier READY unread or being served, the comms thread finds `tlv_ctx` filled only on behalf of the emit that waits |
| DclSendRuns.RunsSendFramed | source/AdvSecurityDml/cujoagent_dcl_api.c:1180-1198 | for every send of every run, timeouts and deinit included: the TLV is one an emit was given, its length field is wrong if and only if it slipped in, too long, between the size check and this sendto, and otherwise it parses back to tag and payload |
| DclSendRuns.RunsSendAllFramedIff | source/AdvSecurityDml/cujoagent_dcl_api.c:1176-1199 | everything a run has put on the socket is framed if and only if nothing it sent had slipped in |
| DclSends.UncheckedSend | source/AdvSecurityDml/cujoagent_dcl_api.c:1176-1198 | a payload of 2^16 bytes or more that replaces a checked TLV can be sent although its length field is wrong |
| DclWitness.StaleAnswerSendsUnchecked | source/AdvSecurityDml/cujoagent_dcl_api.c:650-663 | a complete run with one timed-out wait, before deinit: an emit reports success for a TLV that is never sent, and a TLV too long for its length field is sent instead |
| DclNotes.RunsReadStopIff | source/AdvSecurityDml/cujoagent_dcl_api.c:1127-1164 | before deinit the comms thread's counter reads STOP if and only if an emit wrote its READY on top of an unread one and the two add up to it |
| DclWitness.AddedTokensStopComms | source/AdvSecurityDml/cujoagent_dcl_api.c:1144-1164 | a complete run, before deinit, in which the READY tokens of a frame and of a CSI sample, the two events taken, make the comms thread leave |
| TlvFraming.SizeCrossCheckIffPayloadFits | source/AdvSecurityDml/cujoagent_dcl_api.c:1176-1188 | the size cross-check passes iff the payload's length fits the 16-bit field |
| TlvFraming.WireLayout | source/AdvSecurityDml/cujoagent_dcl_api.c:635-648 | tag and length in two little-endian bytes each, then the payload |
| TlvFraming.WireRoundTrip | source/AdvSecurityDml/cujoagent_dcl_api.c:635-648 | framing and parsing are inverse for every tag and payload that fits |
| TlvFraming.ParseInvertsWire | source/AdvSecurityDml/cujoagent_dcl_api.c:1190-1198 | a datagram that parses is the frame of exactly one tag and payload |
| Notify.LookupByTag | source/AdvSecurityDml/cujoagent_dcl_api.c:619-632 | the table walk finds the tokens of every event tag: READY 2, 4, 6, 8, 10, 12 and the next number for SENT |
| Notify.LookupByReady | source/AdvSecurityDml/cujoagent_dcl_api.c:1137-1142 | the comms thread's walk answers 2, 4, 6, 8, 10, 12 with the next number and everything else with 0 |
| MacAddress.MacStringInjective | source/AdvSecurityDml/cujoagent_dcl_api.c:602-610 | two stations have the same map key only if they have the same MAC |
| MacAddress.MacStringAt | source/AdvSecurityDml/cujoagent_dcl_api.c:602-610 | byte i of the address is at offset 3i, high digit first, digits 0-9 and a-f, a colon behind each but the last |
| InterfaceTable.VapOf | source/AdvSecurityDml/cujoagent_dcl_api.c:1461-1506 | for every table and VAP index, the two searches give the number of entries of the same radio before the first entry with the index, or -1 if there is none |
| InterfaceTable.RankInRange | source/AdvSecurityDml/cujoagent_dcl_api.c:1494-1505 | the rank is below the radio's entry count |
| InterfaceTable.RankInjective | source/AdvSecurityDml/cujoagent_dcl_api.c:1494-1505 | two VAP indexes of one radio never get the same rank |
| InterfaceTable.RankSurjective | source/AdvSecurityDml/cujoagent_dcl_api.c:1494-1505 | every rank below the count belongs to an entry of the radio |
| StationEvent.CountStations | source/AdvSecurityDml/cujoagent_dcl_api.c:1563-1597 | the sizing pass counts the list the event is meant to hold |
| StationEvent.NewStationEvent | source/AdvSecurityDml/cujoagent_dcl_api.c:1551-1651 | the filling pass stays inside the sized event and leaves exactly the specified list; a station is in it iff it is entry k of the map of a subscribed VAP, under that entry's own address and at most 15 characters of the interface's name |
| StationEvent.InEventIffOnSubscribedVap | source/AdvSecurityDml/cujoagent_dcl_api.c:1607-1650 | a station is in the list iff there are a radio, a subscription, the first table entry with its index, and an entry of the map of the VAP of that rank with this address, and its name is that of the interface cut to 15 characters |
| StationEvent.EveryClientReported | source/AdvSecurityDml/cujoagent_dcl_api.c:1625-1636 | each client of a subscribed VAP whose slot has a map is in the event under its own address |
| StationEvent.VapInEvent | source/AdvSecurityDml/cujoagent_dcl_api.c:1599-1640 | the clients of a subscription stand right behind those of all earlier radios and of all earlier subscriptions of its radio |
| StationEvent.ReportedIsListed | source/AdvSecurityDml/cujoagent_dcl_api.c:1625-1636 | client k of a VAP is entry k of its share of the list |
| StationEvent.PositionIsOfClient | source/AdvSecurityDml/cujoagent_dcl_api.c:1599-1640 | every position of the event is the offset of some subscription plus k and holds its client k |
| HashMaps.PutView | source/AdvSecurityDml/cujoagent_dcl_api.c:1904-1920 | putting an entry is a map update |
| HashMaps.RemoveView | source/AdvSecurityDml/cujoagent_dcl_api.c:1936-1944 | removing an entry removes its key and nothing else |
| AssociatedDevices.UpdateFollowsView | source/AdvSecurityDml/cujoagent_dcl_api.c:1889-1966 | one diff entry removes, adds or overwrites its own station, keys stay unique and every entry stays under the string of its own MAC |
| AssociatedDevices.ArrivedIsLast | source/AdvSecurityDml/cujoagent_dcl_api.c:2039-2252 | of several connected records of one station in a diff the last one is kept |
| DiffWork.WorkEffect | source/AdvSecurityDml/cujoagent_dcl_api.c:2039-2252 | a pass changes exactly the subscribed VAPs the document has a diff for, each by its own diff, however often it is subscribed |
| DiffWork.DocumentEffect | source/AdvSecurityDml/cujoagent_dcl_api.c:2328-2336 | after a document each such map is the old one minus the gone stations, updated with the connected records; every other map is as before; all stay keyed by MAC |
| DiffWork.VapWorkAt | source/AdvSecurityDml/cujoagent_dcl_api.c:2082-2105 | one VAP's share of a pass is the creation of its map and then one item for each diff entry in the state, in map order |
| DiffWork.PassesOverEachOnce | source/AdvSecurityDml/cujoagent_dcl_api.c:2062-2085 | a pass goes over a VAP exactly as often as it is subscribed, and over no other |
| DiffWork.RadiosInOrder | source/AdvSecurityDml/cujoagent_dcl_api.c:2062-2063 | the devices of a lower radio are processed first |
| DiffProcessing.Consumer.ProcessDevice | source/AdvSecurityDml/cujoagent_dcl_api.c:2104-2247 | the map is updated whatever the comms do; there are TLVs iff `comms_ready` was set, all about this device; the first is DONE iff the device leaves and its collector was found, otherwise STATION; each further one follows one that was sent, STATION behind DONE and RADIO behind STATION, and does follow; STATION holds the clients of the updated maps; only a failed handoff takes `comms_ready` away |
| DiffProcessing.Consumer.ProcessClientState | source/AdvSecurityDml/cujoagent_dcl_api.c:2039-2252 | the nested loops do the work of the pass in order, every device emits exactly what `ProcessDevice` says from where maps, emits, scans and `comms_ready` stood by then, and all TLVs of the pass are in order as for `DocumentOrder` |
| DiffProcessing.Consumer.ProcessDiff | source/AdvSecurityDml/cujoagent_dcl_api.c:2328-2336 | the maps become those of `DiffWork.AfterDocument` for all outcomes of all emits, the TLVs are those of the disconnect pass followed by those of the connect pass, in order as for `DocumentOrder`, and `comms_ready` is kept exactly if no handoff failed |
| DiffProcessing.DocumentOrder | source/AdvSecurityDml/cujoagent_dcl_api.c:2192-2243 | in a document's whole list of TLVs every RADIO is directly behind a STATION of its device that was sent, every STATION that was sent has its RADIO behind it, every DONE that was sent its device's STATION, and there are no other tags |
| DiffProcessing.TrailHeads | source/AdvSecurityDml/cujoagent_dcl_api.c:2129-2214 | item k of a pass emits iff it is a device, `comms_ready` was set and no earlier emit of the pass failed in the handoff; its first TLV is DONE iff it leaves and its look-up, the one after those of the earlier leaving devices, finds a collector |
| DiffProcessing.DocumentStopsAtFailure | source/AdvSecurityDml/cujoagent_dcl_api.c:650-663 | a document attempts nothing without `comms_ready`, and a failed handoff is its last attempt |
| DiffProcessing.TrailIsOfState | source/AdvSecurityDml/cujoagent_dcl_api.c:2129-2247 | every TLV of a pass is about a device in the state of the pass, and DONE only occurs in a disconnect pass that found a collector |
| DiffProcessing.DisconnectsFirst | source/AdvSecurityDml/cujoagent_dcl_api.c:2328-2333 | every TLV about a leaving station comes before every TLV about an arriving one |
| Temperature.Collection.ProcessAll | source/AdvSecurityDml/cujoagent_dcl_api.c:2663-2752 | over every event sequence, array, counter and emitted events follow the rounds of the history, which `EmittedWhen` and `EmittedWhat` describe |
| Temperature.Collection.Process | source/AdvSecurityDml/cujoagent_dcl_api.c:2624-2751 | slot i always holds the latest reading of radio i in the round or 0; an in-range reading that brings the 32-bit count to the radio count is emitted with comms ready and memory, dropped with comms not ready, and kept without memory; an L1 DONE starts a fresh round; an out-of-range reading changes nothing |
| Temperature.EmittedWhen | source/AdvSecurityDml/cujoagent_dcl_api.c:2711-2739 | an event adds one data event iff it is an in-range reading that brings the count since the last reset to the radio count with comms ready and memory; the round ends with it, with such a reading without comms, and with an L1 DONE, and with nothing else |
| Temperature.EmittedWhat | source/AdvSecurityDml/cujoagent_dcl_api.c:2730-2739 | slot i of that data event is the last reading of radio i since the last reset, 0 if there is none |
| Temperature.AcceptedAreInRange | source/AdvSecurityDml/cujoagent_dcl_api.c:2681-2692 | what is counted are the readings whose radio is below the radio count |
| Temperature.RoundSinceLastReset | source/AdvSecurityDml/cujoagent_dcl_api.c:2624-2630 | the round is the stretch of the history right after the last reset, with no reset in it |
| Temperature.LatestIs | source/AdvSecurityDml/cujoagent_dcl_api.c:2689-2691 | a slot's value is that of the last in-range reading of its radio, 0 if there is none |
| Temperature.BelowUnlessStarved | source/AdvSecurityDml/cujoagent_dcl_api.c:2712-2729 | between events fewer than radio-count readings are held iff no allocation failed in the round |
| Temperature.EmitsAfterExactlyN | source/AdvSecurityDml/cujoagent_dcl_api.c:2712-2751 | a data event follows exactly radio-count accepted readings since the last reset if and only if no allocation failed since then |
| Temperature.StarvedUntilDone | source/AdvSecurityDml/cujoagent_dcl_api.c:2725-2729 | after a failed allocation nothing is emitted and nothing reset until an L1 DONE, short of a whole turn of the counter |
| Temperature.ReadingsPayForEvents | source/AdvSecurityDml/cujoagent_dcl_api.c:2692-2712 | every data event uses up radio-count accepted readings of its own, whatever fails |
| LoggerCountdown.Logger.SetLoggingPeriod | source/AdvSecurityDml/cosa_adv_security_dml.c:349-370 | a period is taken over, and the thread signalled, only if between 60 and 2880 minutes, changed and stored |
| LoggerCountdown.Logger.TakeTurn | source/AdvSecurityDml/cosa_adv_security_internal.c:1841-1896 | one turn of the thread's loop refines `Step`, with writes arriving at any point of it |
| LoggerCountdown.Logger.Loop | source/AdvSecurityDml/cosa_adv_security_internal.c:1849-1894 | any number of turns refines `Run` and `Done` |
| LoggerCountdown.LoopHeadSound | source/AdvSecurityDml/cosa_adv_security_internal.c:1849-1853 | with a stored period of at least an hour, at every loop head an hour or more remains, the unsigned subtraction never wraps, and unless a change is pending whole hours are counted down from the period in force |
| LoggerCountdown.ShortPeriodWraps | source/AdvSecurityDml/cosa_adv_security_internal.c:1846-1853 | a thread started with a shorter stored period wraps in its first undisturbed turn |
| LoggerCountdown.WaitCutShortIff | source/AdvSecurityDml/cosa_adv_security_internal.c:2902-2929 | a wait is cut short iff a change is pending or a write between 60 and 2880 minutes that differs from the period and is stored arrives |
| LoggerCountdown.PeriodIsLastStored | source/AdvSecurityDml/cosa_adv_security_dml.c:349-370 | the period after any writes is that of the last one in range that was stored, or the old one if there is none |
| LoggerCountdown.ChangeRestartsCountdown | source/AdvSecurityDml/cosa_adv_security_internal.c:2902-2929 | a change ends the wait in progress; the countdown restarts from the new period without a status run |
| LoggerCountdown.ChangeEndsSecondWait | source/AdvSecurityDml/cosa_adv_security_internal.c:1856-1880 | a change during the last, shorter wait drops what is left; the hour before it and its status run count |
| LoggerCountdown.QuietHours | source/AdvSecurityDml/cosa_adv_security_internal.c:1851-1867 | before its last whole hour an uninterrupted period is not reloaded |
| LoggerCountdown.QuietPeriod | source/AdvSecurityDml/cosa_adv_security_internal.c:1851-1886 | between two reloads of an uninterrupted period P the waits sum to P minutes, with P / 60 status runs, and the state is back where it was |
| BridgeMode.Handler.HandleNotification | source/AdvSecurityDml/cosa_adv_security_internal.c:2642-2704 | "0" runs the enable script and the on value, "3" on XF3 and "2" elsewhere, the disable script, unless it is the recorded value; nothing else runs one; a one-character value is recorded unless its script failed |
| BridgeMode.Handler.HandleAll | source/AdvSecurityDml/cosa_adv_security_internal.c:2642-2704 | any sequence of notifications refines `Run` |
| BridgeMode.RecordedModeInForce | source/AdvSecurityDml/cosa_adv_security_internal.c:2698-2703 | over every event sequence, if "0" is recorded the last successful command is Enable, if "3" on XF3 or "2" elsewhere it is Disable |
| BridgeMode.CommandsFollowTheMode | source/AdvSecurityDml/cosa_adv_security_internal.c:2646-2696 | if all commands succeed, they are, in order, Enable for each "0" and Disable for each on value among the valid events with consecutive duplicates removed |
| BridgeMode.DedupCountsChanges | source/AdvSecurityDml/cosa_adv_security_internal.c:2650-2656 | what is left after removing duplicates is one event for each change of the value |
| BridgeMode.DedupAt | source/AdvSecurityDml/cosa_adv_security_internal.c:2650-2656 | each value that differs from the one before it is kept, behind as many as differed before it |
| BridgeMode.DedupKeepsChanges | source/AdvSecurityDml/cosa_adv_security_internal.c:2650-2656 | what is left changes all the way, up to the value that came last |
| BridgeMode.FailureIsRetried | source/AdvSecurityDml/cosa_adv_security_internal.c:2660-2672 | a failed command is tried again by the next event with the same value, whatever came in between |
| FeatureBlob.Agent.UpdateFeatureStatus | source/AdvSecurityDml/cosa_adv_security_internal.c:2381-2393 | a feature is written, once, only if it changes, and switched only if the write succeeds; no script runs |
| FeatureBlob.Agent.SwitchFingerPrint | source/AdvSecurityDml/cosa_adv_security_internal.c:1769-1839 | the enable or disable script as the blob says, then the flag, then one store write, which decides the result |
| FeatureBlob.Agent.HandleBlob | source/AdvSecurityDml/cosa_adv_security_internal.c:2395-2442 | the stages in order refine `Handle`, for every pattern of store failures |
| FeatureBlob.SuccessAppliesAll | source/AdvSecurityDml/cosa_adv_security_internal.c:2404-2441 | success: all five flags equal the blob, exactly the changed ones went to the store, and one script ran: enable or disable if fingerprinting changed, otherwise configure |
| FeatureBlob.StoreFailureAppliesPrefix | source/AdvSecurityDml/cosa_adv_security_internal.c:2404-2428 | a store failure leaves a prefix of the fixed order applied and the rest unchanged; on a failed fingerprint write all five flags are already as in the blob |
| FeatureBlob.SuccessWrites | source/AdvSecurityDml/cosa_adv_security_internal.c:2404-2418 | a success tried one store write for each changed feature and all were successful |
| FeatureBlob.FailureWrites | source/AdvSecurityDml/cosa_adv_security_internal.c:2404-2418 | a failure ends on the write that failed; all before it were successful |
| FeatureBlob.FeaturesInOrder | source/AdvSecurityDml/cosa_adv_security_internal.c:2404-2428 | safe browsing, softflowd, parental control, privacy protection, fingerprinting: a later one changes only when the earlier ones are as in the blob |
| FeatureBlob.RefusedChangesNothing | source/AdvSecurityDml/cosa_adv_security_internal.c:2401-2402 | a blob is refused iff it disables an agent already disabled, and then nothing changes |
| FeatureBlob.ReapplyingWritesNothing | source/AdvSecurityDml/cosa_adv_security_internal.c:2385-2402 | reapplying a blob writes nothing, and succeeds iff it enables fingerprinting |
| FeatureBlob.AgreementKeptIff | source/AdvSecurityDml/cosa_adv_security_internal.c:1800-1801 | exactly when flags and store still agree after a blob, by the outcome of the last store write |
| FeatureBlob.LostFingerPrintWriteStaysLost | source/AdvSecurityDml/cosa_adv_security_internal.c:1800-1838 | a failed fingerprint write is not made up for by trying the blob again |
| FeatureBlob.RetrySucceeds | source/AdvSecurityDml/cosa_adv_security_internal.c:2404-2418 | any other failure is made up for by the first retry that meets a working store |
| MsgpackObjects.MatchIff | source/AdvSecurityDml/advsecurity_helpers.h:28-28 | what `match` accepts: the prefixes of the name, and the name followed by a NUL and anything |
| MsgpackObjects.StartsLikeIff | source/AdvSecurityDml/advsecurity_helpers.c:168-168 | the finder's other comparison accepts keys that begin with the name |
| DocumentParams.Param.Process | source/AdvSecurityDml/advsecurity_param.c:114-164 | returns 0 iff both required names occur, and each field holds the last value given before the loop stops |
| DocumentParams.Cut | source/AdvSecurityDml/advsecurity_param.c:120-120 | the loop reads the shortest prefix with both required names, the whole map if there is none |
| DocumentParams.CompleteByName | source/AdvSecurityDml/advsecurity_param.c:112-164 | the map is complete iff it has a boolean whose key `match` accepts for FingerPrintEnable and one for PrivacyProtectionActivate |
| DocumentParams.OrderDoesNotMatter | source/AdvSecurityDml/advsecurity_param.c:120-163 | with distinct exact names and a required one last, neither the result nor any field depends on the order of the rest |
| DocumentParams.EarlyExitDropsFields | source/AdvSecurityDml/advsecurity_param.c:120-120 | with a field after both required ones the order does matter |
| DocumentParams.EmptyKeyHitsAll | source/AdvSecurityDml/advsecurity_param.c:126-150 | one boolean under an empty key sets every field and ends the loop |
| DocumentDecoder.Decoder.Find | source/AdvSecurityDml/advsecurity_helpers.c:143-179 | the first entry taken for the name, and `errno` if there is none; taken is a map under a prefix of the name, or the name and a NUL, and any other value under a key that starts with the name |
| DocumentDecoder.AdvsecurityDoc.Process | source/AdvSecurityDml/advsecurity_param.c:165-201 | name, version mod 2^32, transaction id mod 2^16 and parameters of the document, and when it fails |
| DocumentDecoder.ParamsOfByName | source/AdvSecurityDml/advsecurity_param.c:126-150 | each of the five parameters is what the last entry under its own key says, of the entries read, or false |
| DocumentDecoder.Decoder.Convert | source/AdvSecurityDml/advsecurity_helpers.c:46-136 | result and `errno` for every buffer, object and allocation outcome |
| DocumentDecoder.FindsAllFour | source/AdvSecurityDml/advsecurity_helpers.c:104-107 | in a document of advsecurity, subdoc_name, version and transaction_id entries, in any order, each is found under its own name |
| DocumentDecoder.WellFormedDecodes | source/AdvSecurityDml/advsecurity_helpers.c:104-117 | a well-formed document decodes to its name, its version mod 2^32, its transaction id mod 2^16 and its parameters, in any order; it is an error iff a required parameter is missing or there is no memory for the parameters |
| DocumentDecoder.NoWrapperDecodesToEmpty | source/AdvSecurityDml/advsecurity_helpers.c:104-117 | without an entry for the wrapper the document is the empty one, and no error |

## Left out

- RunsHandOffFaithfully: sends and successful emits are equal only in runs before deinit without timeouts, because a late SENT, or one read by a wait of deinit on the shared `queue_epoll`, breaks the pairing; RunsSucceedUnsentIff, RunsSendWhatSucceeds and RunsSendFramed are what is promised for other runs.
- RunsSucceedUnsentUnderThreat: one-way with deinit at work, because whether its waits can still empty the counter depends on how far it has come.
- RunsFindOwnTlv: one-way, because a leftover READY of the same tag serves the next emit just as well.
- RunsAccountForDone: whether a DONE that is passed to emit arrives; that is for the handoff properties.
- RunsReopenExactly: receiving a HELLO and sending VERSION are one step, so a HELLO received before a failure and answered after it counts as a later one.
- RunsSendFramed: the numeric tag codes and the header layout come from a header that is not part of the repository; a 4-byte header in host byte order is assumed.
- DocumentEffect: allocation failures while maps are updated; the maps of a decoded document are taken to be fresh and unaliased, their iteration order stable.
- Param.Process: maps of 2^31 or more entries, for which the int counter starts negative; the mask `objects_left` is the set of its bits.
- ProcessDevice: a station event that cannot be allocated is passed to emit as a null payload and refused there; the model counts it as an attempt that fails for want of memory.
- Decoder.Find: a comparison that would read past the known bytes after a key counts as unequal.
- ShortPeriodWraps: the width of `ULONG` is taken as 32 bits; wider ones wrap for the same values.
- AgreementKeptIff: that a failed commit leaves the set value readable is an assumption about the store, which is not part of the repository.
- Thread creation is assumed to succeed; the error path that takes a collector out of the table again is not modelled.
- Emit fills `tlv_ctx` in one step; the code sets its size, allocates and copies one after the other.
- After a timed-out handoff the comms thread may still look at a TLV that is gone; the model then lets it fall back to its loop.
- The FIFO thread appears only as one of the pushers and as one of deinit's waits.
- Edge-triggered epoll, interest lists and file descriptors themselves: a notification may be read any time after it was written.
- Hash map and queue libraries, sockets, RBUS, `webconfig_decode`, timers and the clock: foreign calls with free results.
- Freeing of decoded maps, MAC filters and subscriptions; the sizes of the interface table (`MAX_NUM_VAP_PER_RADIO` is external) are parameters.
- CSI and management-frame copying, pcap and radiotap headers, radio events' field copies, debug printing.
- TR-181 getters and setters other than the LoggingPeriod check, RFC init and deinit pairs, boot code, the WAN and cloud-host events, log rotation: one-branch members and plumbing.
- The WiFi data collection blocks inside CosaAdvSecInit and CosaAdvSecDeInit, which are compiled in only for some products.
- Byte-level msgpack and base64: decoding starts from objects.
