# WineDirectALSA: a model of the streaming driver and its proofs

WineDirectALSA lets a Windows ASIO host talk to an ALSA sound card. This project
models the parts that have to be right for that to work in real time, and proves
what they promise over whole runs:

- **The worker thread** (`Casio.dfy`, specified by `Session.dfy`). It fills the
  playback ring with two blocks, starts the card and then exchanges blocks between
  the card and the host's double buffers, recovering from xruns with a ring full
  of silence. `Session` says from outside what one run looks like: the callbacks,
  the frames the card accepted, the frames it handed out. `Casio.Worker` is the code,
  over real arrays, and is proved to produce exactly such a run.
- **The race with `stop`** (`StopRace.dfy`). Host and worker as program counters
  over the stop token, the mutex and the card; every interleaving is a run, and the
  safety of stopping is an inductive invariant.
- **The PCM layer** (`AlsaControl.dfy`). The transfer loops over short reads and
  writes, and the control of two streams that may or may not be linked.
- **The backend of a process** (`Unixlib.dfy`) and the instances that share it:
  `CasioDriver.Process` makes any sequence of calls on any number of instances.
- **The reservation of sound cards** (`AudioReservation.dfy`, `CardNames.dfy`) and
  the protocol it follows among processes (`ReservationProtocol.dfy`).
- **The sample clock** (`Timestamps.dfy`) and **interleaving** (`Samples.dfy`).

Foreign code appears only through what it is relied on to do. `Alsa.dfy` states the
PCM calls as relations between the state of a card before and after: states, ring
fill, short transfers, the start threshold, linking, and what time and other threads
may change between two calls. Both the class and the step relation use these same
relations. `Dbus.dfy` states a bus connection: which names it holds, and that
it closes only when its last reference and its last object slot are gone; during any
call other processes may take names away. Each outcome that these contracts allow is
covered, and so is everything a host may write into its buffers during a callback. Interruptions by signals and checks of the stop token are
finite in number but otherwise unbounded, which makes every run finite.

Results that go against expectation:

- Among processes, a successful acquisition is secure only if no other process still
  holds an acceptance from an earlier owner: names are requested with
  ALLOW_REPLACEMENT, so two drivers that asked the same peer both succeed and the
  first loses the card (`StaleAcceptanceTakesTheName`, `SecureExactlyWhenUncontested`).
- When the two PCM streams could not be linked, an xrun may end the worker. A recovery
  can succeed exactly when no stream in use runs; linked streams, and playback alone,
  always have stopped by then, but an overrun of capture while playback goes on, or an
  underrun of playback while capture goes on, leaves a stream that cannot be prepared
  (`RecoveryNeedsStoppedStreams`, with a run for each: `OverrunEndsTheWorker`,
  `UnderrunEndsTheWorker`).
- A start of streams that are not linked may leave them in different states although it
  succeeds (`StartAgreement`).
- A stop that returns OK is sure to leave every stream in use in Setup exactly when its
  drop of playback does not meet the worker right before a prepare, for which a recovery
  takes no mutex; streams that are not linked may then even end in different states
  (`SetUpExactlyWithoutPrepare`, with runs for both: `StoppedButPrepared`,
  `PreparedBetweenTheDrops`). In every case they are empty and do not run, and the next
  start can succeed (`RestartAfterStop`). After a stop that failed it may not
  (`FailedStopRefusesStart`).
- `request_acquire` can return true without holding every name: one that was granted may
  have been taken by the time the last one is (`RequestAcquire`).
- A card id survives the device id exactly when it fits the buffer of 128 characters
  next to the rest of the text, is not empty and has no comma (`DeviceIdRoundTrip`).

`dafny verify dfyconfig.toml` checks the project with Dafny 4.11.

## Model

| member | source | states |
|---|---|---|
| `CasioDriver.Casio.Worker` | windows/src/CASIO.cpp:247-342 | for every behaviour of card, host and scheduler the thread's session is a well-formed run; the card accepted exactly the stream of that run, the samples read are those of the run, the position is the run's, each start found 128 frames queued, the instance stays valid, and the thread ended only because it saw a stop request or a call failed |
| `CasioDriver.Casio.PrimeAndLoop` | windows/src/CASIO.cpp:249-341 | the same account without the state of the instance |
| `CasioDriver.Casio.Loop` | windows/src/CASIO.cpp:289-341 | the loop extends the account of the run pass by pass until a stop or a failure |
| `CasioDriver.Casio.PrimeAndStart` | windows/src/CASIO.cpp:249-285 | first callback with index 0 and silent inputs, then half 1 as the host left it, then half 0; a start only on a ring filled by exactly these |
| `CasioDriver.Casio.FirstSwitch` | windows/src/CASIO.cpp:249-257 | the host reads position zero in the first callback and finds the active input half 0 silent |
| `CasioDriver.Casio.WriteBothHalves` | windows/src/CASIO.cpp:259-277 | half 1 before half 0, the second only after the first was accepted whole |
| `CasioDriver.Casio.Pass` | windows/src/CASIO.cpp:291-341 | one pass is one turn of the run: what was read, the callback with this index, the position the host reads in it, the prefix accepted, the silence of a recovery, and the index of the next pass |
| `CasioDriver.Casio.NextBlock` | windows/src/CASIO.cpp:292-294 | a whole block or the end; at most 96 frames queued after a wait, and with linked streams queued and unread frames make up one block |
| `CasioDriver.Casio.AfterRead` | windows/src/CASIO.cpp:296-310 | a callback follows only a whole block and no stop request; a recovery keeps the half |
| `CasioDriver.Casio.Exchange` | windows/src/CASIO.cpp:312-340 | the half delivered into, handed to the host and sent is one and the same, and the position is advanced before the host is called |
| `CasioDriver.Casio.AfterWrite` | windows/src/CASIO.cpp:322-340 | the half changes after a good write and before a recovery from an underrun |
| `CasioDriver.Casio.RecoverXrun` | windows/src/CASIO.cpp:87-131 | success means 128 silent frames accepted, the position advanced by 128 and a start on a full ring; a failure accepted a prefix of the silence and started nothing |
| `CasioDriver.Casio.FillWithSilence` | windows/src/CASIO.cpp:106-118 | the ring holds exactly the silence written so far |
| `CasioDriver.Casio.WriteBackend` | windows/src/CASIO.cpp:110-117 | between preparing a stream and the first write into it the stop token is always checked |
| `CasioDriver.Casio.StartBackend` | windows/src/CASIO.cpp:122-128 | between taking the mutex and a start the stop token is always checked |
| `CasioDriver.Casio.StartUnderMutex` | windows/src/CASIO.cpp:122-128 | a start succeeds only on 128 queued frames, after a re-check of the stop request |
| `CasioDriver.Casio.BufferSwitch` | windows/src/CASIO.cpp:317 | the host reads the current position, finds the input halves as they are and may leave anything in any buffer |
| `CasioDriver.Casio.Interleave` | windows/src/CASIO.cpp:56-66 | frame i of the block is sample i of the left half and sample i of the right half, zero for an inactive channel |
| `CasioDriver.Casio.Deinterleave` | windows/src/CASIO.cpp:68-81 | active channels of one half receive the samples of their position in each frame; inactive channels and the other half keep theirs |
| `Samples.SplitOfInterleaved` | windows/src/CASIO.cpp:56-81 | splitting undoes interleaving |
| `Samples.InterleavedOfSplit` | windows/src/CASIO.cpp:56-81 | interleaving undoes splitting |
| `Samples.InterleavedAt` | windows/src/CASIO.cpp:62-65 | left samples at even positions, right samples at odd ones |
| `Samples.OutgoingAt` | windows/src/CASIO.cpp:59-65 | what is sent for a half, sample by sample, for every pair of channel flags |
| `Samples.Loopback` | windows/src/CASIO.cpp:56-81 | playing a half back into the inputs, for all channel masks: active channels are restored, channels silent on output come back as zeros, everything else is untouched |
| `Session.Conservation` | windows/src/CASIO.cpp:120-341 | at every loop head, frames accepted plus frames refused by underruns equal 128 plus the sample position |
| `Session.SentLength` | windows/src/CASIO.cpp:291-341 | the same for the loop alone, over any mix of good passes, overruns, partial writes and recoveries |
| `Session.IndexOfTurn` | windows/src/CASIO.cpp:289-340 | the index of a loop callback is the parity of the callbacks before it, through all xruns |
| `Session.DeliveredBlock` | windows/src/CASIO.cpp:291-317 | what a callback finds in the active input halves is one whole block of consecutive captured frames |
| `Session.DeliveredInDeviceOrder` | windows/src/CASIO.cpp:291-317 | later callbacks get later, disjoint blocks; frames of a torn read belong to none |
| `Session.Extend` | windows/src/CASIO.cpp:291-341 | a turn taken with the right half extends a run, its stream, position and input |
| `Session.PlayedFirst` | windows/src/CASIO.cpp:263-277 | what the card plays first is half 1 and then half 0 of the first callback, as the host left them |
| `Session.PlayedBlock` | windows/src/CASIO.cpp:316-340 | behind all that was sent before, the card plays the half each callback was handed, as the host left it and cut to what was accepted, then the silence of a recovery |
| `Session.PositionOfTurn` | windows/src/CASIO.cpp:312-317 | in a loop callback the host reads the frames of all blocks and recoveries before it and of its own block |
| `Session.PositionsOfRun` | windows/src/CASIO.cpp:249-317 | the host reads zero first and never the same position twice: every later callback is at least a block further |
| `Session.CallsInTime` | windows/src/CASIO.cpp:291-317 | at every callback of the loop at most 96 frames are queued without capture, at most one block with linked streams |
| `StopRace.StopIsFinal` | windows/src/CASIO.cpp:349-370 | once a stop dropped the streams, no frame is accepted, no start succeeds, and every stream in use is empty and does not run until start is called again, in every interleaving |
| `StopRace.StopReturns` | windows/src/CASIO.cpp:356-369 | OK exactly when every stream was dropped; then nothing runs, nothing is queued and the thread is gone |
| `StopRace.JoinEnds` | windows/src/CASIO.cpp:363-365 | after a successful drop no call of the worker can sleep any more, on the card or on the mutex, and it is done after at most three more steps |
| `StopRace.SleepsOnlyWhileAwaited` | windows/src/CASIO.cpp:247-342 | in every reachable state a call of the worker can sleep only on a stream that runs, or for the mutex while the host holds it for a drop |
| `StopRace.SetUpExactlyWithoutPrepare` | windows/src/CASIO.cpp:102-115 | in every run, an OK stop is sure to leave every stream in use in Setup exactly when the worker is not right before a prepare as playback is dropped, and sure to leave the streams in agreement exactly when it is not or the streams are linked or capture is not in use |
| `StopRace.PathInOneStop` | windows/src/CASIO.cpp:349-370 | along every interleaving within one stop, what was dropped stays as the drop left it unless the worker was right before a prepare |
| `StopRace.StoppedButPrepared` | windows/src/CASIO.cpp:87-115 | that case occurs: a run in which stop returns OK and the worker has prepared playback again after the drop |
| `StopRace.PreparedBetweenTheDrops` | linux/src/alsa_control.cpp:456-459 | a run in which the worker prepares playback between the drops of two streams that are not linked, and both drops succeed |
| `StopRace.StartsFindAFullRing` | windows/src/CASIO.cpp:102-128 | each successful start, in every interleaving, finds playback prepared with exactly 128 frames, under the mutex |
| `StopRace.PrimingFits` | windows/src/CASIO.cpp:263-277 | a write into a stream not yet started has room for all its frames and never starts it; no other transfer meets a prepared stream |
| `StopRace.ThreadsExclude` | windows/src/CASIO.cpp:279-285 | starting and dropping exclude each other; without start or stop under way there is a worker exactly while the host streams; a join waits for the end of the worker; a new worker finds no running stream |
| `StopRace.RestartAfterStop` | windows/src/CASIO.cpp:236-245 | a start can succeed exactly when no stream in use runs, and so always after a stop that returned OK |
| `StopRace.FailedStopRefusesStart` | windows/src/CASIO.cpp:236-243 | a run in which a stop cannot drop the streams and the next start can only be refused |
| `StopRace.RecoveryNeedsStoppedStreams` | windows/src/CASIO.cpp:102-104 | in every reachable state a recovery can prepare the streams, with nothing in between, exactly when none in use runs; one has always stopped, and with linked streams or without capture all have |
| `StopRace.StartCompletes` | windows/src/CASIO.cpp:249-285 | from every reachable start of a worker, and from every recovery past its prepare, with no stop under way and the streams prepared, the worker can by its own steps get to the loop with 128 frames accepted, one more start and every stream in use running; linked or not, with whole or short writes |
| `StopRace.RecoveryCompletes` | windows/src/CASIO.cpp:87-131 | the same from every reachable xrun that was seen, as soon as no stream in use runs |
| `StopRace.PassCompletes` | windows/src/CASIO.cpp:291-340 | from every reachable head of the loop with a block captured and room for one, the worker can read and send exactly one block, in whole or short transfers, and be back |
| `StopRace.LinkedSessionRecovers` | windows/src/CASIO.cpp:249-341 | a run in which linked streams start, meet an xrun and start again |
| `StopRace.OverrunEndsTheWorker` | windows/src/CASIO.cpp:300-306 | a run from a fresh card in which unlinked capture overruns while playback runs; every next step ends the worker |
| `StopRace.UnderrunEndsTheWorker` | windows/src/CASIO.cpp:326-334 | a run from a fresh card in which playback underruns while unlinked capture runs; its first prepare can succeed, its second never |
| `StopRace.LatencyIsBound` | windows/src/CASIO.cpp:383-392 | in every interleaving a callback without capture meets at most 96 queued frames |
| `StopRace.LatencyIsReached` | windows/src/CASIO.cpp:383-392 | a run in which a callback without capture meets exactly 96 queued frames |
| `StopRace.RunKeepsInv` | windows/src/CASIO.cpp:236-370 | the invariant of mutex, token, program counters, ring contents and dropped streams holds in every reachable state |
| `StopRace.DroppedWorkerStep` | windows/src/CASIO.cpp:87-131 | whatever the worker does after the drop accepts and starts nothing and brings it closer to its end |
| `CasioDriver.Casio.constructor` | windows/src/CASIO.cpp:27-31 | a new instance owns nothing |
| `CasioDriver.Casio.Init` | windows/src/CASIO.cpp:166-210 | succeeds only where the process has no backend, and then playback is opened on the output and capture on the input of the registry, with the cards of both reserved; with a backend present, its own or another's, instance, backend and reservations stay as they are; a failure without one has its cause in the registry, on the bus or in opening playback |
| `CasioDriver.Casio.CreateBuffers` | windows/src/CASIO.cpp:515-588 | accepted exactly the requests with one to four distinct existing channels in state Initialized; the channels in use are those asked for, with halves that are all zero, the card is set to 48 kHz, periods of 32 and a ring of 128, both streams agree; a failure leaves the state |
| `CasioDriver.Casio.AddChannels` | windows/src/CASIO.cpp:532-569 | stops at the first channel that is missing, unavailable or repeated; the channels in use are then exactly those before it |
| `CasioDriver.Casio.Start` | windows/src/CASIO.cpp:236-347 | only from Prepared; a thread exists afterwards exactly on success, and every stream in use is prepared and empty |
| `CasioDriver.Casio.Stop` | windows/src/CASIO.cpp:349-370 | the thread is gone and the state Prepared whether or not the streams could be dropped; until the drop of playback the worker may still transfer and start anything; OK means that nothing was sent or started since and every stream in use is empty and does not run, an error that a call failed; if the thread had returned before, nothing was sent at all and OK leaves the streams in Setup |
| `CasioDriver.Casio.WindDown` | windows/src/CASIO.cpp:102-128 | wherever a drop of all streams finds the worker, the calls it still makes before the next check of the token send, read and start nothing and leave every stream in use empty and stopped, and that check ends it |
| `CasioDriver.Casio.FinishCall` | windows/src/CASIO.cpp:257-337 | the rest of a write, a read or a wait, a callback with its write, and a prepare or its second half, each from a card whose streams were dropped, accept and deliver nothing |
| `CasioDriver.Casio.StopBackend` | windows/src/CASIO.cpp:358-361 | a drop that meets the worker before a prepare may find it behind that prepare when it returns |
| `CasioDriver.Casio.DisposeBuffers` | windows/src/CASIO.cpp:590-618 | stops first, clears every half with no thread left and takes every channel out of use, refused without buffers |
| `CasioDriver.Casio.GetLatencies` | windows/src/CASIO.cpp:383-392 | in every run without capture the output latency bounds what is queued at every callback of the loop, and a reachable callback meets exactly that much |
| `CasioDriver.Casio.GetSamplePosition` | windows/src/CASIO.cpp:461-483 | position and exact time stamp modulo 2^64 while running, an error otherwise |
| `CasioDriver.Casio.Destroy` | windows/src/CASIO.cpp:33-54 | no thread survives, the defensive branch is not needed; the owner takes backend and reservations down, any other instance leaves them |
| `CasioDriver.Process` | windows/src/CASIO.cpp:27-54 | for any number of instances, created and destroyed at any time, and any sequence of calls on them, every instance stays valid, the instances share no buffer, and the owner of the backend is one of them |
| `CasioDriver.BackendHasOneOwner` | linux/src/main.cpp:39-68 | after any such sequence the backend exists exactly while one live instance has it, never two, only that one has a thread, and cards are reserved only then |
| `CasioDriver.Casio.OthersStayValid` | linux/src/main.cpp:47-68 | no call of one instance disturbs another: one without the backend changes nothing that its owner uses |
| `Unixlib.Unixlib.InitAlsa` | linux/src/main.cpp:47-68 | a second init changes nothing; a success reserves the cards of both devices and opens each device for its direction; a failed one leaves no backend and no reservation, and the bus could not be reached, refused something, or playback could not be opened |
| `Unixlib.Unixlib.UninitAlsa` | linux/src/main.cpp:151-160 | backend and reservations go together, and playback is stopped first or the stop failed |
| `Unixlib.Unixlib.SetAlsaBuffer` | linux/src/main.cpp:74-86 | fails without a backend, else the control's promise |
| `Unixlib.Unixlib.ReadAlsa` | linux/src/main.cpp:88-96 | an error that reads nothing without a capture stream, else the control's promise |
| `Unixlib.Unixlib.WriteAlsa` | linux/src/main.cpp:98-106 | an error that sends nothing without a backend, else the control's promise |
| `Unixlib.Unixlib.StartAlsa` | linux/src/main.cpp:108-118 | fails without a backend, else the control's promise |
| `Unixlib.Unixlib.StopAlsa` | linux/src/main.cpp:139-149 | fails without a backend, else the control's promise |
| `AlsaControl.Control.Write` | linux/src/alsa_control.cpp:408-433 | for every sequence of short writes, interruptions and errors the card accepted a prefix of the samples, all of it exactly when the result is Ok, and none of it after a drop; an xrun is reported only for one and an error exactly for a failed call; frames left and interruptions left decrease |
| `AlsaControl.Control.Read` | linux/src/alsa_control.cpp:381-406 | the samples read fill the destination from the start and nothing past them changes; Ok exactly for all of them, and none are read after a drop |
| `AlsaControl.Control.WaitPeriod` | linux/src/alsa_control.cpp:361-379 | Ok means a period of the ring is free |
| `AlsaControl.Control.SetBuffer` | linux/src/alsa_control.cpp:229-343 | success means exactly the requested rate and sizes in both directions, a start threshold no write can reach, capture in use exactly when asked for and available, the streams linked unless that was refused, only streams in use linked, both prepared |
| `AlsaControl.Control.Prepare` | linux/src/alsa_control.cpp:435-445 | is one or two prepares of streams that do not run when their turn comes; success leaves both streams prepared and empty unless another thread drops playback in between |
| `AlsaControl.PrepareAgreement` | linux/src/alsa_control.cpp:435-445 | a successful prepare is sure to leave the streams in the same state exactly when they are linked or capture is not in use, and always when no other thread interferes |
| `AlsaControl.PrepareNeedsStoppedStreams` | linux/src/alsa_control.cpp:435-445 | an undisturbed prepare can succeed exactly when no stream in use runs |
| `AlsaControl.Control.Start` | linux/src/alsa_control.cpp:345-359 | is one start, or one of capture and then one of playback; success means playback runs with what was queued; a failed start leaves playback unstarted |
| `AlsaControl.StartAgreement` | linux/src/alsa_control.cpp:345-359 | a start can succeed exactly when every stream in use is prepared, and a success is sure to leave them in the same state exactly when they are linked or capture is not in use |
| `AlsaControl.Control.Stop` | linux/src/alsa_control.cpp:447-463 | success leaves every stream in use empty and stopped, also after a start that failed half-way: in Setup, except that playback is prepared when a worker prepared it before unlinked capture was dropped; every stream in use that was not dropped is a drop that failed |
| `AlsaControl.StopAgreement` | linux/src/alsa_control.cpp:447-463 | a stop can always succeed, a success brings every card to rest, and it is sure to leave the streams in the same state exactly when they are linked, capture is not in use or no worker stands before a prepare |
| `AlsaControl.Control.constructor` | linux/src/alsa_control.cpp:37-65 | opens the first device for playback and, only after that and only when wanted, the second for capture; it fails to open at most one |
| `Alsa.LaterTransitive` | linux/src/alsa_control.cpp:381-433 | what is known after transfers and interference composes: frames queued before a start, and queued plus unread frames of linked streams |
| `AudioReservation.Reservations.RequestAcquire` | linux/src/audio_reservation.cpp:251-300 | true: exactly one bus name was granted for each card behind the two devices and nothing else, and exactly those are held that nobody took since; false: no name, no object, no connection, whichever call failed; on an open bus it is false exactly when something failed or was refused |
| `ReservationProtocol.AllSecureExactlyWhenUncontested` | linux/src/audio_reservation.cpp:189-225 | a driver that owns the names of several cards holds them all in every run in which it releases none exactly when nobody else holds an acceptance for any of them |
| `AudioReservation.Reservations.AcquireAll` | linux/src/audio_reservation.cpp:289-295 | all or nothing for a list of any length |
| `AudioReservation.Reservations.Acquire` | linux/src/audio_reservation.cpp:159-234 | one more card on record and exactly its name more granted, or nothing on record; an owner is replaced only after it agreed, and was asked on the path of that card with the highest priority |
| `AudioReservation.Reservations.Cleanup` | linux/src/audio_reservation.cpp:132-157 | the connection is closed and holds no name even when releasing a name fails |
| `AudioReservation.Reservations.AddCard` | linux/src/audio_reservation.cpp:256-274 | adds the card of the device, if it has one, and never twice |
| `AudioReservation.Reservations.Wanted` | linux/src/audio_reservation.cpp:254-277 | one reservation for each card behind the two devices, under the playback device where both lead to the same card |
| `AudioReservation.CardOfDevice` | linux/src/audio_reservation.cpp:256-265 | a device takes a card exactly when its text names a known one |
| `AudioReservation.Reservations.GetCardIndex` | linux/src/audio_reservation.cpp:106-130 | an index exactly when the card part of the name is a known card |
| `AudioReservation.NeverPreempted` | linux/src/audio_reservation.cpp:33-47 | no 32-bit priority is ever accepted |
| `ReservationProtocol.UncontestedOwnerStays` | linux/src/audio_reservation.cpp:33-47 | among any number of processes a driver that holds an uncontested name keeps it until it releases it |
| `ReservationProtocol.SecureExactlyWhenUncontested` | linux/src/audio_reservation.cpp:189-225 | a driver keeps its name in every run exactly when nobody else holds an acceptance for it |
| `ReservationProtocol.StaleAcceptanceTakesTheName` | linux/src/audio_reservation.cpp:191-225 | a run in which two drivers both acquire a name and the first loses it |
| `CardNames.DecimalExactly` | linux/src/audio_reservation.cpp:161 | the number of a card is written as its one decimal numeral: digits only, no leading zero, with that value |
| `CardNames.NamesOfCard` | linux/src/audio_reservation.cpp:161-174 | bus name and object path are the interface name and path of the protocol, "Audio" and the numeral of the card |
| `CardNames.NamesDistinguishCards` | linux/src/audio_reservation.cpp:161-174 | different cards have different bus names and object paths |
| `CardNames.CardName` | linux/src/audio_reservation.cpp:106-127 | a name exactly when the text reads: anything without a colon, a colon, perhaps "CARD=", that name, non-empty and without a comma, then nothing or a comma and more; every text has at most one such name |
| `CardNames.DeviceIdIs` | linux/src/alsa_control.cpp:164-166 | the device id is "hw:CARD=", the card id, ",DEV=" and the numeral of the device, cut to 127 characters |
| `CardNames.DeviceIdRoundTrip` | linux/src/alsa_control.cpp:164-166 | the card id read back from a printed device id is the original exactly when it is non-empty, has no comma and fits the buffer |
| `CardNames.DevicesShareTheirCard` | linux/src/audio_reservation.cpp:267-273 | all devices of a card resolve to one reservation |
| `Timestamps.QuotientForm` | windows/src/CASIO.cpp:473-478 | the quotient and remainder form is the exact rounded-down time for every position and rate |
| `Timestamps.ExactModulo` | windows/src/CASIO.cpp:475-478 | in 64-bit arithmetic the time stamp is the true one modulo 2^64, for every position and start |
| `Timestamps.ExactExactlyInRange` | windows/src/CASIO.cpp:475-478 | in 64-bit arithmetic the time stamp is exact exactly when the true one fits |
| `Timestamps.TimestampMonotone` | windows/src/CASIO.cpp:475-478 | later positions never have earlier time stamps |
| `Timestamps.CenturiesWithoutOverflow` | windows/src/CASIO.cpp:83-85 | exact and below 2^63 for nine billion seconds at 48 kHz from any 32-bit start |
| `Timestamps.DirectProductOverflows` | windows/src/CASIO.cpp:473-474 | multiplying first is wrong exactly from position 18446744074 on |
| `Timestamps.BlockDuration` | windows/src/CASIO.cpp:475-478 | a block advances the stamp by 1333333 or 1333334 ns, three blocks by exactly 4 ms |

## Left out

- CasioDriver.Casio.Worker: is one method in which the host's stop and drop appear as interference at every call into the card and at every check of the token; which interleavings exist, and that stopping is safe in all of them, is the subject of `StopRace`, which counts frames but does not carry samples.
- CasioDriver.Casio.Worker: claims no latency bound for duplex streams that could not be linked, because the two then run on separate clocks.
- CasioDriver.Casio.Stop: does not promise that an OK leaves the streams in Setup or that no call failed, because the worker may still prepare a stream after the drop of playback and be refused other calls (`StopRace.SetUpExactlyWithoutPrepare`); which transfers happen before that drop is left open.
- AlsaControl.Control.Stop: does not promise that unlinked streams end in the same state, because a worker may prepare playback between the two drops (`StopRace.PreparedBetweenTheDrops`); what a worker reads from a capture stream between them counts as read before.
- AlsaControl.Control.WaitPeriod: an Ok does not mean that playback is prepared or runs, because a wait on a stream in Setup may be answered too.
- AudioReservation.Reservations.RequestAcquire: does not promise that every name is still held on return, because names are granted with ALLOW_REPLACEMENT.
- StopRace.RecoveryNeedsStoppedStreams: speaks of prepares made at once; a stream that still runs may stop between two of them.
- StopRace.SleepsOnlyWhileAwaited: says what may wake the worker, not that a sound card ever does.
- Alsa.Readi: what a read of a prepared stream delivers is not stated; the driver never makes one (`StopRace.PrimingFits`).
- CasioDriver.Casio.Start: the thread is created but runs as a separate call of `Worker`; scheduling, real-time priority and whether the worker ever gets to run are not modelled.
- CasioDriver.Casio.CreateBuffers: a missing buffer list or callback table, and the buffer pointers handed back to the host, are not modelled; the list is as long as the channel count.
- CasioDriver.Casio.GetSamplePosition: takes the latched start time as a parameter, and the sample rate is always 48000.
- AlsaControl.Control.SetBuffer: the negotiation of hardware parameters is one call that succeeds with the requested values or fails, possibly half-way.
- ReservationProtocol.UncontestedOwnerStays: assumes that no process ever replaces an owner that did not agree; the D-Bus daemon would not stop one.
- The overload message of recover_xrun (windows/src/CASIO.cpp:93-100): the host may not change its buffers or call the driver from it; it has no other effect.
- StopRace.StopIsFinal: creating and disposing of buffers are not steps of the race; they need a host without a worker (`ThreadsExclude`).
- CasioDriver.Casio.BufferSwitch: the host changes its buffers only during a callback.
- Host callbacks that call stop or dispose from the worker thread.
- Device enumeration apart from the device id it prints, the retry timing of opening a device, clocks.
- linux/src/realtime_thread.cpp, the registry, the control panel, COM reference counts, and the getters that return constants.
- Memory allocation failure, C++ exceptions and weak memory effects of relaxed atomics.
- The width of a sample: samples are copied and zeroed only.
