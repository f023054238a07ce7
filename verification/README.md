# Meshtastic mesh stack: a verified model

This project models the mesh layer of a Meshtastic-compatible LoRa stack and proves what it keeps:
the flooding protocol over a whole network of nodes, the duty-cycle ledger, the radio loop with its
device hand-over, and the framing and encryption below them. `dafny verify dfyconfig.toml` checks it.

| file | contents |
|---|---|
| `Bytes.dfy`, `Packet.dfy`, `Crypto.dfy` | machine integers, the 16-byte header, AES-CTR over an arbitrary block cipher |
| `Router.dfy`, `App.dfy` | the 50-entry dedup cache, the routing decision, one mesh node |
| `Network.dfy` | N nodes on an arbitrary link graph; originate, receive, lose and rebuild steps in any order; integrity, hop accounting, distance |
| `Flood.dfy` | termination and the bound on receptions, from any state and for any bytes in the air |
| `AtMostOnce.dfy` | at-most-once delivery and relaying, simple relay paths |
| `Coverage.dfy` | which nodes a loss-free flood in rounds reaches |
| `Asynchrony.dfy`, `AsyncCoverage.dfy` | loss-free runs in an arbitrary order: who hears the packets, and exactly when coverage is certain |
| `DutyCycle.dfy`, `Airtime.dfy` | the pruned ledger against the full history; the time-on-air formula |
| `Model.dfy`, `Radio.dfy`, `SimLoop.dfy`, `RadioSafety.dfy` | commands, one radio tick as a function, the loop as an object, and the invariants of every run |
| `Settings.dfy`, `Receiving.dfy`, `TickEffects.dfy` | what a batch of commands, a decode attempt and a whole tick do, told by their inputs alone; the relays and reports of whole runs |

Where the program updates objects in place (`DedupCache`, `MeshNode`, `Ledger`, `ViewModel`,
`SimRadio`, the header and key-stream buffers), the model has a class or an array method whose
contract equates the new state with a function of the old one; the theorems are about those functions.
The functions themselves are pinned by statements that do not mention them: the bytes on the air
(`CtrBytes`, `FieldsFromBytes`, `BuiltBytes`), the node's exits and answers on raw bytes (`RxExits`,
`RxEffect`, `RxMessage`), and everything a tick sends, logs and receives (`TickIsTicked`).

Inputs from outside are parameters: the block cipher, the protobuf code (a pair of functions; the
network results assume that decoding undoes encoding), random packet ids, clock readings, whether a
UHD device can be opened, the samples of a tick, and the receiver's answers (any, as long as each
consumes between one sample and the whole buffer). The initial hop limit of a packet is a parameter below 8; `build_frame` uses 3.
Network copies carry two history fields, the
origination they stem from and the nodes that transmitted them; radio states carry the history fields
marked as such in `Radio.dfy`.

Four properties fail in general; each has an input on which it fails and the exact condition for all inputs.

- Loss-free delivery in an arbitrary order does not give coverage (`AsynchronyBreaksCoverage`). For one
  packet with h hops among N nodes with distinct ids, every order covers every link graph if and only if
  `h == 0` or `N <= h + 2` (`AsyncCoverageIff`), so with `build_frame` up to five nodes. In rounds it always holds (`FloodCovers`).
- In the clock's first hour the ledger's fallback cutoff drops live entries and the budget is exceeded
  (`FirstHourOverspends`). `can_send` answers as a recount if and only if nothing was recorded in the last hour
  before the largest fallback reading so far (`AnswersRecountIff`), which may fail even after the first hour;
  the budget is kept by all uses whose readings start at T if and only if T is at least an hour (`BudgetKeptIff`).
- A new foreign packet with hops left is not always relayed (`UnreadableBodyLosesRelay`): it is if and only if it is
  not both addressed to the node and unreadable by the codec (`RxEffect`).
- Parking a device after its arguments changed files it under the wrong arguments (`StaleDevice`); labels stay
  true if and only if that does not happen (`LabelsStayTrueIff`).

Where comments and code differ, the model follows the code: the body is decrypted before the dedup
lookup although the comment in `mesh/src/mesh/router.rs:11-16` puts it after; no jitter is applied;
the time-on-air code adds eight symbols and has no low-data-rate factor, unlike the formula in
`mesh/src/mac/duty_cycle.rs:6-12`.

## Model

| member | source | states |
|---|---|---|
| Bytes.LittleEndian | mesh/src/mac/packet.rs:42-44 | byte k of a 32-bit word is its digit of weight 256^k |
| Bytes.FromLeValue | mesh/src/mac/packet.rs:59-61 | four received bytes denote the sum of their values times 256^k |
| Bytes.XorBits | mesh/src/app.rs:48-51 | a bit of the exclusive or is set exactly where the operands differ |
| Packet.Encode | mesh/src/mac/packet.rs:40-52 | the buffer filled in place is the on-air header: little-endian words, packed flag byte, two zero bytes |
| Packet.FrameBytes | mesh/src/mac/packet.rs:81-86 | header followed by the payload |
| Packet.FieldsFromBytes | mesh/src/mac/packet.rs:55-95 | bytes parse exactly if there are sixteen, and which bits of them each field is |
| Packet.RoundTrip | mesh/src/mac/packet.rs:40-95 | decoding an encoded frame loses only the upper five bits of the two hop fields |
| Packet.RoundTripExact | mesh/src/mac/packet.rs:40-95 | a frame survives the wire if and only if both hop fields are below 8 |
| Packet.ReencodeBytes | mesh/src/mac/packet.rs:55-95 | any received bytes of header length re-encode to themselves with the reserved bytes zeroed |
| Crypto.MakeNonce | mesh/src/mac/crypto.rs:36-43 | packet id and sender placed little-endian in a zeroed block |
| Crypto.ApplyKeystream | mesh/src/mac/crypto.rs:57-61 | the buffer is xored in place with the key stream that `CtrBytes` spells out, at any length |
| Crypto.Encrypt | mesh/src/mac/crypto.rs:46-50 | a copy of the plaintext xored with that key stream |
| Crypto.CtrBytes | mesh/src/mac/crypto.rs:13-61 | byte j is xored with byte j mod 16 of the cipher's image of the block made of packet id, sender and, most significant byte first, the block index j/16 |
| Crypto.CtrUndo | mesh/src/mac/crypto.rs:53-61 | decryption, the same operation, undoes encryption at every length for every block cipher |
| Crypto.CounterBlocksDistinct | mesh/src/mac/crypto.rs:36-61 | two counter blocks with index below 2^32 are equal if and only if packet id, sender and index are |
| Router.DedupCache.CheckAndInsert | mesh/src/mesh/router.rs:36-45 | answers whether the key was present and leaves the cache as one lookup does |
| Router.Route | mesh/src/mesh/router.rs:62-97 | decision and cache change of the router |
| Router.CacheIsWindow | mesh/src/mesh/router.rs:22-45 | over every call sequence the cache is exactly the last min(50, n) accepted keys in order, without repeats |
| Router.AcceptancesDistinct | mesh/src/mesh/router.rs:22-45 | any 51 consecutive acceptances are pairwise distinct |
| Router.DuplicateIff | mesh/src/mesh/router.rs:36-45 | an accepted key is reported as a duplicate exactly until fifty later acceptances |
| Router.FewKeysAcceptedOnce | mesh/src/mesh/router.rs:36-45 | while at most 50 distinct keys are seen nothing is evicted and each is accepted once |
| Router.FiftyOneKeysForget | mesh/src/mesh/router.rs:36-45 | the bound is tight: after any 51 distinct keys the first is accepted again |
| Router.RelayBytes | mesh/src/mesh/router.rs:86-90 | relaying raw bytes lowers byte 12 by one, zeroes bytes 14-15 and changes nothing else |
| App.MeshNode.WithId | mesh/src/app.rs:118-133 | a node with the given id starts with an empty dedup cache |
| App.MeshNode.Build | mesh/src/app.rs:147-164 | oversize bodies give no frame, others an encrypted frame with hop limit and hop start 3 |
| App.BuiltBytes | mesh/src/app.rs:147-164 | a frame is built exactly for bodies of at most 237 bytes; its bytes, with flag byte 0x63 and the channel hash |
| App.ByteSumIsModulo | mesh/src/app.rs:48-51 | the name hash is the sum of the bytes modulo 256 |
| App.MeshNode.ProcessRxFrame | mesh/src/app.rs:202-241 | answer and cache of the node for arbitrary bytes, with the three error exits; the next three rows say which answer that is |
| App.RxExits | mesh/src/app.rs:206-213 | on raw bytes: malformed exactly below sixteen bytes, wrong channel exactly without the MQTT bit and with another hash byte; both leave the cache alone, and all other bytes are looked up under sender and id |
| App.RxEffect | mesh/src/app.rs:202-241 | for arbitrary bytes: the cache changes exactly for new keys of this channel; the codec error arises exactly for a new packet for this node with an unreadable body; bytes go out exactly for the other new foreign packets with hops left, and are the received ones one hop on |
| App.RxMessage | mesh/src/app.rs:216-241 | on raw bytes: a message is handed over exactly for a new packet to this node or to everyone with a readable body, with sender, addressee, hop limit and decoded body of the bytes |
| App.RxRepeated | mesh/src/app.rs:216-241 | bytes whose key is cached are answered with neither message nor relay and change nothing |
| App.UnreadableBodyLosesRelay | mesh/src/app.rs:216-238 | a new foreign broadcast with hops left and an unreadable body is not relayed, and neither is its repetition |
| App.ReceiveBuilt | mesh/src/app.rs:147-241 | a built frame at any remaining hop limit is delivered to addressees with its original data and relayed by others than its sender |
| Network.OriginatesBuiltFrame | mesh/src/app.rs:147-164 | an origination with hop limit 3 is possible exactly when `build_frame` returns a frame, and puts that frame on the air for every listener |
| Network.StepKeepsInv | mesh/src/app.rs:202-241 | every originate, receive, lose or rebuild step keeps integrity, hop accounting and the cache window at all nodes |
| Network.RunKeepsInv | mesh/src/app.rs:202-241 | so does every run |
| Network.EndToEndIntegrity | mesh/src/app.rs:147-241 | in every run each delivered message carries sender, addressee and data of one real origination and reached an addressee over links of the mesh |
| Network.HopAccounting | mesh/src/mesh/router.rs:77-90 | in every run bytes in the air parse to an originated frame, relayed exactly hop start minus hop limit times along links |
| Network.ReceiversNearby | mesh/src/mesh/router.rs:77-90 | in every run whoever can receive bytes in the air is within hop start minus hop limit plus one links of the origin, as read off those bytes |
| Network.DeliveredNearby | mesh/src/mesh/router.rs:77-90 | every delivery is within one link more than the hops the message has spent, so within 4 links for `build_frame` |
| Flood.StepSpends | mesh/src/mesh/router.rs:77-97 | every receive or lose step strictly lowers the total weight of the copies in the air, from any state and for any bytes |
| Flood.FloodTerminates | mesh/src/mesh/router.rs:62-97 | in every run receptions and losses never exceed the initial weight plus N*W(hops) per origination, even with evictions and rebuilds |
| Flood.SingleFloodBound | mesh/src/app.rs:156-157 | one packet of `build_frame` causes at most N + N^2 + N^3 + N^4 receptions |
| AtMostOnce.RunKeepsOnce | mesh/src/mesh/router.rs:36-45 | every run keeps at-most-once handling at every node with at most 50 distinct packets since its last rebuild |
| AtMostOnce.DeliversOnce | mesh/src/app.rs:216-238 | such a node has delivered each packet at most once since then |
| AtMostOnce.RelaysOnce | mesh/src/app.rs:216-238 | such a node has relayed each packet at most once since then |
| AtMostOnce.RelayPathsSimple | mesh/src/app.rs:221-238 | if all nodes are calm, every relay path visits no node twice and avoids its origin |
| AtMostOnce.RelayedAtMost | mesh/src/app.rs:221-238 | then no packet is relayed more than N-1 times |
| Coverage.WaveAdvances | mesh/src/mesh/router.rs:62-97 | one loss-free round, in any order, carries the flood exactly one link further |
| Coverage.FloodCovers | mesh/src/mesh/router.rs:62-97 | after r loss-free rounds exactly the non-origin nodes within min(r, h+1) links have accepted the packet, and exactly the addressees among them were handed it |
| Coverage.FloodEnds | mesh/src/mesh/router.rs:77-83 | after h+1 rounds nothing is in the air |
| Asynchrony.AtRestEveryoneInEarshotHeard | mesh/src/mesh/router.rs:62-97 | for any number of packets and in every order of events: once a run without losses and rebuilds has come to rest, everyone who hears the origin or a relay of a packet has processed it |
| AsyncCoverage.SmallFloodsCover | mesh/src/mesh/router.rs:62-97 | with no hops, or at most h+2 nodes, every order of receptions that comes to rest reaches all nodes within h+1 links and hands the message to the addressees among them |
| AsyncCoverage.AsynchronyBreaksCoverage | mesh/src/mesh/router.rs:70-83 | for every hop limit from 1 to 7 and every N >= h+3, a link graph and an order in which every copy is received, yet a node two links away never gets the packet |
| AsyncCoverage.AsyncCoverageIff | mesh/src/mesh/router.rs:62-97 | every order covers every link graph of N nodes if and only if the hop limit is 0 or N <= h+2 |
| DutyCycle.Ledger.EvictStale | mesh/src/mac/duty_cycle.rs:71-76 | pops the leading entries older than the cutoff |
| DutyCycle.Ledger.CanSend | mesh/src/mac/duty_cycle.rs:40-45 | evicts, then compares the sum of what is left plus the request with the budget |
| DutyCycle.Ledger.RecordTx | mesh/src/mac/duty_cycle.rs:48-50 | appends the entry |
| DutyCycle.EvictExact | mesh/src/mac/duty_cycle.rs:71-76 | on a sorted log eviction keeps exactly the entries no older than the cutoff |
| DutyCycle.AlwaysFaithful | mesh/src/mac/duty_cycle.rs:40-50 | after any interleaving of calls the log is a sorted suffix of the full history, and what it lacks is older than an hour |
| DutyCycle.PruningIsLossless | mesh/src/mac/duty_cycle.rs:40-50 | after any interleaving `can_send` answers as a recount of the full history over the last hour would |
| DutyCycle.RollingHourBudget | mesh/src/mac/duty_cycle.rs:40-50 | if every recording was granted, the airtime in the hour ending at any instant is within budget |
| DutyCycle.AlwaysTrimmed | mesh/src/mac/duty_cycle.rs:40-76 | with any non-decreasing clock, first hour included, the log is exactly the history since the largest cutoff so far |
| DutyCycle.LostToFallback | mesh/src/mac/duty_cycle.rs:40-76 | what a query counts plus what was recorded in the last hour before the largest fallback reading is the airtime of the last hour |
| DutyCycle.AnswersRecountIff | mesh/src/mac/duty_cycle.rs:40-76 | over all call sequences with a non-decreasing clock, a query answers as the recount for every budget and airtime if and only if nothing was recorded in the last hour before the largest fallback reading so far |
| DutyCycle.BudgetKeptIff | mesh/src/mac/duty_cycle.rs:40-76 | all uses in which every recording was granted and all readings are at least T keep every hour within budget if and only if T is at least an hour |
| DutyCycle.PrunesExactlyIff | mesh/src/mac/duty_cycle.rs:71-76 | one eviction keeps exactly the entries of the last hour in a log if and only if the clock is an hour past its origin or no entry is older than the fallback reading |
| DutyCycle.FirstHourOverspends | mesh/src/mac/duty_cycle.rs:71-76 | whenever a query of the first hour falls back to a reading later than the transmission before it, a second granted transmission spends twice the budget |
| Airtime.PayloadBlocksAreCeil | mesh/src/mac/duty_cycle.rs:67 | the block count of the model is the ceiling of the clamped real quotient |
| Airtime.BlocksExact | mesh/src/mac/duty_cycle.rs:59-69 | the payload blocks are ceil((2*PL+11)/SF)-1, also where the formula clamps |
| Airtime.TimeOnAirExact | mesh/src/mac/duty_cycle.rs:59-69 | time on air is the exact count of quarter symbols times 2^SF/(4*BW) |
| Airtime.MonotoneInPayload | mesh/src/mac/duty_cycle.rs:59-69 | a longer payload never takes less time |
| Airtime.StrictInPreamble | mesh/src/mac/duty_cycle.rs:59-69 | a longer preamble takes strictly more time |
| Airtime.StrictInSpreading | mesh/src/mac/duty_cycle.rs:59-69 | any higher spreading factor takes strictly more time for every payload, preamble and coding rate up to 12 |
| Model.ViewModel.constructor | mesh/src/model.rs:191-230 | the initial view |
| Model.ViewModel.ApplyCommand | mesh/src/model.rs:95-142 | the effect of each command on the view, rebuild flags included |
| Settings.Drained | mesh/src/model.rs:95-142 | after any batch of commands each setting is the argument of the last command that sets it or the old value; the rebuild requests, the queue, the log and the counters likewise |
| SimLoop.SimRadio.constructor | mesh/src/radio.rs:127-162 | the state in which the loop is entered, with the first driver made and the rebuild flag cleared |
| SimLoop.SimRadio.PushLogFull | mesh/src/radio.rs:76-80 | appends a log line and drops the oldest beyond 200 |
| SimLoop.SimRadio.DrainCommands | mesh/src/radio.rs:169-171 | applies all pending commands in order |
| SimLoop.SimRadio.NodeRebuild | mesh/src/radio.rs:179-186 | a pending node rebuild gives a fresh node and a log line |
| SimLoop.SimRadio.DriverRebuild | mesh/src/radio.rs:189-253 | the device hand-over, as `TickHandsOver` says, and the restart of clock and buffer |
| SimLoop.SimRadio.ReadParameters | mesh/src/radio.rs:256-287 | interval adjustment and spreading-factor change |
| SimLoop.SimRadio.SendBeacon | mesh/src/radio.rs:295-303 | the beacon schedule and its push |
| SimLoop.SimRadio.SendManual | mesh/src/radio.rs:313-325 | drains or clears the queue of typed messages |
| SimLoop.SimRadio.SendAuto | mesh/src/radio.rs:328-339 | the auto transmission and its next date |
| SimLoop.SimRadio.CollectSamples | mesh/src/radio.rs:342-375 | extends and trims the receive buffer, as `CollectOk` says |
| SimLoop.SimRadio.Decode | mesh/src/radio.rs:377-433 | the inner decode loop terminates, with the buffer length as measure, and does what `DecodeDeals` says |
| SimLoop.SimRadio.RunTick | mesh/src/radio.rs:164-443 | one round of the loop is the tick function, paused rounds included; `TickIsTicked` tells what that does |
| RadioSafety.TickKeepsDevices | mesh/src/radio.rs:189-248 | a tick keeps at most one UHD handle alive, none parked beside an active one, none opened beside another, and the driver in agreement with the view; devices are handed over as in `TickHandsOver` |
| RadioSafety.RunningDeviceStays | mesh/src/radio.rs:202-204 | a running device that is still wanted survives every tick, whether or not one could be opened |
| RadioSafety.OpensIff | mesh/src/radio.rs:202-233 | a device is opened exactly in ticks that take up a rebuild request for UHD while the wanted device neither runs nor is parked |
| RadioSafety.TickHandsOver | mesh/src/radio.rs:189-248 | which device runs and which is parked after a rebuild request: the running, the parked, a new one or, when opening fails, none; switching off parks |
| RadioSafety.LabelsStayTrueIff | mesh/src/radio.rs:234-239 | a tick keeps every handle filed under the arguments it was opened with if and only if it does not park after an argument change |
| RadioSafety.DeviceHasViewArgs | mesh/src/radio.rs:193-243 | in runs without such parking an active device was opened with the view's arguments unless a rebuild is pending |
| RadioSafety.StaleDevice | mesh/src/radio.rs:205-239 | a run after which view and loop name arguments the running device was not opened with |
| RadioSafety.TickClock | mesh/src/radio.rs:249-343 | clock, both dates and the number of test messages after any tick, from view and dates before it |
| RadioSafety.AutoSlotIff | mesh/src/radio.rs:259-339 | a tick places a test message if and only if it runs in Terminal mode with the switch on and the date reached |
| RadioSafety.IntervalNeverPostpones | mesh/src/radio.rs:262-268 | without rebuild and test message no interval change puts the next date off |
| RadioSafety.BeaconsPaced | mesh/src/radio.rs:295-296 | two beacons without a driver rebuild in between are at least 5,000,000 samples apart |
| RadioSafety.AutoTransmissionsPaced | mesh/src/radio.rs:259-339 | two auto transmissions without a driver rebuild in between are at least the smallest interval read since the first of them apart in samples, for any interval changes, pauses and other transmissions in between |
| RadioSafety.NextTxCeiling | mesh/src/radio.rs:259-268 | in every tick of every run, after the adjustment, the next auto transmission is at most max(SR_HZ, interval) samples away |
| RadioSafety.IntervalExactIff | mesh/src/radio.rs:260 | the 64-bit interval product is exact if and only if it does not overflow |
| RadioSafety.WrappedIsModulo | mesh/src/radio.rs:313-339 | counting with the program's wrapping increment is the true count modulo 2^64 |
| RadioSafety.TickKeepsLog | mesh/src/radio.rs:72-80 | the log is the last 200 lines since the last reset, and the counters are its numbers of transmissions and of foreign receptions, wrapping at 2^64 |
| RadioSafety.TickKeepsTexts | mesh/src/radio.rs:313-325 | every applied message is queued or settled; a settled one was cleared exactly if the tick that took it read mode Listen, else dropped exactly if oversize, else sent; those sent are what was transmitted, in order |
| RadioSafety.TickSettles | mesh/src/radio.rs:313-325 | a running tick settles its whole queue under the mode it reads, and clears something only in mode Listen; a paused tick settles nothing |
| RadioSafety.WithoutListenAllSent | mesh/src/radio.rs:313-325 | in every run in which no tick reads mode Listen, the texts transmitted are exactly the settled ones that fit a frame, in order |
| RadioSafety.TickKeepsAir | mesh/src/radio.rs:291-433 | nothing is handed to the driver but frames built by this node under its own id, carrying the node info to everyone, the typed text or the test text, and received bytes one hop on; `TickIsTicked` says that all of these do go out |
| RadioSafety.TickAddresses | mesh/src/radio.rs:313-339 | the typed and test texts a tick pushes go to the destination chosen in the view after its commands |
| RadioSafety.TickKeepsIds | mesh/src/app.rs:151-158 | the frames a node ever built carry successive draws of the random source, one each |
| RadioSafety.TickKeepsRx | mesh/src/radio.rs:369-433 | the receive buffer is bounded and a suffix of what was received since the last clear, and every other sample was used by a decode attempt or trimmed in a tick with more than 4,000,000 |
| RadioSafety.CollectOk | mesh/src/radio.rs:370-375 | new samples extend the buffer, to their sum up to 4,000,000 samples and else to the latest 2,000,000 |
| RadioSafety.ListenIsSilent | mesh/src/radio.rs:291-339 | a tick that reads mode Listen, or is paused, pushes nothing at any of the five push sites |
| RadioSafety.AlwaysSafe | mesh/src/radio.rs:127-443 | all of these hold together in every state of every run |
| Receiving.HandleFrameEffect | mesh/src/radio.rs:383-419 | one decoded frame: one relay with the bytes one hop on and one Fwd line if and only if the mode is Terminal and the frame relayable; one Rx line with sender and hops if and only if deliverable; one Error line if and only if faulty; nothing else |
| Receiving.DecodeDeals | mesh/src/radio.rs:377-433 | the decode loop deals once and in order with every answer of the receiver, each consuming what it says |
| TickEffects.TickIsTicked | mesh/src/radio.rs:164-443 | from commands, dates and inputs: everything a tick transmits, in order; every line it logs, in order; every decode attempt, and what is left of the samples |
| TickEffects.TickKeepsReception | mesh/src/radio.rs:377-433 | a tick keeps relays and reports in step with the decode attempts |
| TickEffects.AlwaysReceives | mesh/src/radio.rs:377-433 | in every run the relays sent are, in order, exactly the decoded frames relayable in Terminal mode, one hop on; the Rx, Fwd and Error lines since the last reset are exactly those the attempts call for; the cache is what the lookups since the last node rebuild leave |

## Left out

- LoRa modulation and demodulation, the UHD driver, spectrum and waterfall plots, gain and level settings: external or floating-point signal processing; the model keeps what the loop does with their results.
- User interface, HTTP and WebSocket server, snapshot copies, presets and region tables: no protocol state.
- The neighbour table and node names: a map insert and strings that nothing else reads.
- The protobuf encoder and AES: a pair of functions and an arbitrary block cipher; the node-info body is a parameter.
- Foreign transmitters: in the network every frame in the air stems from a modelled origination, except in `Flood.dfy`, which allows any bytes.
- Wall-clock time, sleeping, atomics and locks: the loop runs on one thread, and commands arrive at the start of a tick.
- Wording and time stamps of log lines: entries keep direction, sender, hops and origin.
- Radio clock width: `produced`, the dates derived from it and the test-message number are unbounded; the interval product, the only operation a command can overflow, is 64-bit, with release-build wrap-around.
- DutyCycle.Ledger.CanSend: the budget is a number of nanoseconds, not the rounded product of the window and a floating-point fraction.
- Airtime.TimeOnAirExact: seconds are real numbers; floating-point rounding is not modelled.
- Builds without the UHD feature, and drivers other than UHD that could be parked.
