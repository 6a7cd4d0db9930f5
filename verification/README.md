# Load-test harness: model and proofs

The harness runs a population of simulated game clients against a fleet of Buddy servers.
Worker threads own the clients; one control thread refreshes tokens and asks for server
placements on their behalf; a provisioner obtains accounts in parallel; counters, windows and
fleet merges report what happened. This project models that logic in Dafny 4.11 and proves
what it keeps over every run. `dafny verify dfyconfig.toml` checks everything.

## How it is organised

| modules | what they hold |
|---|---|
| `Settings`, `Motion`, `Walker`, `CubeSlots`, `SparseHash` | configuration, placement and movement; `Walker` is the object that changes its fields in place |
| `Bytes`, `Wire`, `Bundle` | message templates patched in place, signing and verifying, the bundle walker |
| `SimClient`, `ClientSteps`, `ClientBooks`, `ClientInvariants`, `ClientHistory`, `Pacing`, `SteadyPace` | one client: every step of the worker loop as a function, what each step does seen from outside, what it keeps, whole histories on one clock, and the send rate |
| `Protocol`, `ProtocolInvariants`, `ProtocolProofs`, `ProtocolTheorems`, `ClientRuns`, `Suspension` | all workers, the request queue and the control thread as one interleaved state machine, its invariant, the theorems, what is in the bytes of every message, and when a suspension is final |
| `WorkerThread`, `WorkerRuns`, `ControlThread` | the worker, the queue and the control loop as objects and loops; a loop turn of the worker object is a run of the state machine |
| `DerivedEmail`, `Provisioning`, `Allocation` | derived accounts, the provisioning thread pool, start and hot-add index allocation |
| `Percentile`, `Snapshot`, `Windows`, `SnapshotJson`, `FleetMerge`, `RefusalRace` | histogram percentiles, counters as summaries of events, windows, JSON round trip, fleet merge, the race between refusal handlers and snapshots |

The world outside is an input. What the network delivers, what the API answers, what the
clocks read and what the random generators draw are parameters of a step, and every theorem is
for all of them. HMAC-SHA256 (section 2 of RFC 2104) is a function from key and message to an
optional 32-byte tag, and the bytes of a float are a function of its value. Doubles are `real`.
Counters are unbounded. Shared accesses are sequentially consistent.

## Where the code does not do what one might expect

Each of these is a lemma with a concrete or parametric witness, next to the exact condition
under which the property does hold.

- A comment at `src/Stats.cpp:381` calls the merged fleet window the union of the hosts'
  windows. It is not (`FleetMerge.MergedWindowIsNotUnion`). It always contains the common
  part, and it covers a host's window exactly when that host opened late by no more than its
  window is shorter than the longest (`FleetMerge.MergedWindowCoversHost`).
- Merging groups of hosts first gives the same report, but not the same warning about
  disagreeing rung labels: it can be lost (`FleetMerge.GroupingLosesWarning`) and it can be
  invented (`FleetMerge.GroupingInventsWarning`). Exactly when it stays as it was is
  `FleetMerge.GroupingKeepsWarningIff`.
- A window's maximum is reset and read apart from the loads of its counters. A latency
  between the two halves of a mark is a sample whose maximum is lost
  (`Windows.MaximumSlipsThroughMark`); one between the two halves of a reading is a maximum
  without a sample (`Windows.MaximumSlipsIntoReading`). The exact condition, over every order
  of a mark's and a reading's accesses, is in `Windows.WindowCountsSinceMark`; there the
  loads of one lifetime snapshot count as one step, and `Windows.TornLoadsAreExact` takes
  them one by one.
- A window's unexplained refusals can be a clamped zero, for any number of refusals
  (`RefusalRace.WindowCanClamp`). Whether that can happen is settled when the window is
  opened: it cannot if and only if no handler was pending and neither explanation had moved
  when the opening snapshot loaded the codes (`RefusalRace.WindowIsExactIff`). The lifetime
  count is always exact.
- After a stall of exactly two send intervals, the attempts between two ticks can differ from
  the rate by a whole one (`SteadyPace.StallLeavesFullLag`); any smaller lag keeps it below
  one (`Pacing.SteadyRate`), and an activation always leaves a smaller lag
  (`SteadyPace.SteadyAfterActivation`).
- `src/Worker.hpp:33` says that a failed update suspends the client for good. A failed update
  can find its client running and leave it running
  (`Suspension.FailedAnswerFindsClientRunning`), and a suspended client is suspended for good
  exactly when its worker has stopped, or nothing of its own is still to be answered and
  every answer under way to it has failed (`Suspension.SuspendedForGoodIff`). The running
  client does not ask for a refresh again until some other answer succeeds
  (`ClientHistory.RefreshAskedOnce`).
- Window reloads are impossible in a cube no wider than the permission radius and possible
  in every wider one (`ClientHistory.ReloadIffWide`).

## Model

| member | source | states |
|---|---|---|
| `ProtocolTheorems.NoClientIsLost` | src/Worker.cpp:147-197 | after every run of all workers, queue and control thread, a SUSPENDED client has a request or update of its own in flight, or a failure applied since it was suspended |
| `ProtocolTheorems.RefreshIsInFlightOrRefused` | src/Worker.cpp:422-434 | the same for a client waiting for a refresh while it keeps running |
| `ProtocolTheorems.AnsweredOnceInOrder` | src/Harness.cpp:12-88 | answers are a prefix of the pushed requests, each for its own slot, applied per worker in order and at most once; when the control thread has left after shutdown, nothing is unanswered |
| `ProtocolTheorems.InFlightCarriesIdentity` | src/Worker.cpp:156-181 | every queued, served or posted message for a slot carries the index and email of the client in that slot |
| `ProtocolTheorems.IdentityNeverChanges` | src/Worker.cpp:164-197 | from any moment of a run to any later one, including hot-adds, a client keeps its slot and its account, although the worker applies whatever its inbox holds |
| `ProtocolTheorems.GaugesCountClients` | src/Worker.cpp:139-236 | after every transition the gauges equal the clients in each state over all workers, and a socket is open exactly for ACTIVE |
| `Suspension.SuspendedForGoodIff` | src/Worker.cpp:171-176 | in every reachable state a suspended client stays suspended in every continuation if and only if its worker has stopped, or no request of its own is in the outbox, the queue or being served and every update under way to it has failed |
| `Suspension.CanResume` | src/Worker.cpp:183-188 | any other suspended client has a continuation that brings it back |
| `Suspension.FailedAnswerFindsClientRunning` | src/Worker.cpp:174-177 | from every initial state there is a run that applies a failed update to an ACTIVE client, which is ACTIVE still |
| `ProtocolTheorems.NarrowCubeNeverReloads` | src/Worker.cpp:284-321 | no run of the whole system counts a window reload when the cube is no wider than the radius |
| `ProtocolTheorems.NoBurst` | src/Worker.cpp:399-420 | over any run, stalls and re-activations included, a window of length W holds at most W * updateHz + 2 attempts of one client |
| `ProtocolTheorems.EverySendIsTheEncoding` | src/Worker.cpp:451-457 | whatever the run, each message sent is the pure encoding of the current session, token, chunk, pose and sequence, and verifies |
| `ClientRuns.EverySendTellsThePlace` | src/SimClient.hpp:363-389 | whatever the run, the bytes of a message tell, field by field, the client's world position projected to chunk and pose, its heading and velocity, which are those it just walked with, and in the last byte the number of its packets |
| `ClientRuns.ConsecutiveNumbers` | src/SimClient.hpp:386-388 | two sends of a client with no attempt between them carry consecutive numbers modulo 256, capabilities in between aside |
| `ClientRuns.ActiveOnlyWhenReady` | src/Worker.cpp:201-204 | after any run no client is ACTIVE that was activated before its own time or its session's, and every placed client stands where its chunk and pose say |
| `ClientRuns.RunInGoodOrder` | src/Worker.cpp:474-495 | every run keeps sequence numbers, activation times and places in order |
| `ClientSteps.ErrorDatagramAsks` | src/Worker.cpp:333-350 | an error datagram makes a running client ask for a refresh if the code is 5, 20 or 32 and none is pending, for another server at the last of 5 * updateHz refusals, and for nothing otherwise |
| `ClientSteps.RefusalIsFiled` | src/Worker.cpp:266-321 | when a refusal counts as first contact, as a window reload or as unexplained, and when the box is re-centred |
| `ClientSteps.ReconnectAsks` | src/Worker.cpp:354-358 | a reconnect command suspends the client and asks for another server |
| `ClientSteps.OthersOnlyHeard` | src/Worker.cpp:238-242 | an empty datagram, or one of any other type, only counts as heard |
| `ClientSteps.BadTagOnlyHeard` | src/Worker.cpp:246-256 | a signed bundle that does not verify only counts as heard |
| `ClientSteps.SignedBundleVerifiesIff` | src/Wire.hpp:312-317 | a signed bundle verifies if and only if its tag is what the token signs |
| `ClientSteps.BundleActsInOrder` | src/Worker.cpp:260-375 | a bundle does what its members would do as datagrams of their own, in order |
| `ClientSteps.TickActs` | src/Worker.cpp:403-470 | what a tick sends and asks for: silence, pacing, one refresh inside the lead, another server after 3 * updateHz failed sends |
| `ClientSteps.TickNumbers` | src/Worker.cpp:436-455 | when capabilities go out, and that every packet takes one sequence number |
| `ClientSteps.AnswerActs` | src/Worker.cpp:171-196 | what a failed and a successful update change, and what they leave alone |
| `ClientSteps.ActivationActs` | src/Worker.cpp:199-236 | when a client is activated and what a first and a later activation set |
| `ProtocolProofs.RunInv` | src/Worker.cpp:474-495 | the joint invariant holds in every reachable state of the interleaved system |
| `ProtocolProofs.NextNoneLost` | src/Worker.cpp:147-197 | every step keeps each waiting client's request or answer in flight, or refused |
| `ProtocolProofs.NextInOrder` | src/Worker.hpp:40-64 | every step keeps the order between pushed, served, answered and applied |
| `ProtocolProofs.NextGauges` | src/Worker.cpp:147-236 | every step moves the gauges by exactly the change in the counted states |
| `ProtocolProofs.NextAddresses` | src/Worker.cpp:156-181 | every step keeps all messages in flight addressed to the account of their slot |
| `ProtocolInvariants.AppliesOwn` | src/Worker.cpp:171-181 | what a worker is about to apply belongs to the client it is for: a consequence of the invariant, not of a test |
| `ProtocolProofs.NextDraining` | src/Harness.cpp:17-87 | the control thread leaves only when the queue is empty, and nothing is pushed after that |
| `ClientBooks.DatagramAsksOnce` | src/Worker.cpp:238-377 | a datagram asks for exactly one request if it is what suspends the client and none otherwise, however its members continue after the suspension |
| `ClientBooks.SuspendBooked` | src/Worker.cpp:147-162 | suspending moves the gauges by the state change and asks once, unless already suspended |
| `ClientBooks.ApplyBooked` | src/Worker.cpp:164-197 | applying an answer asks nothing, keeps the account, and leaves the client waiting only if it failed |
| `ClientBooks.ActivateBooked` | src/Worker.cpp:199-236 | activation keeps gauges and socket in step and asks at most once, on socket failure |
| `ClientBooks.ErrorCodeBooked` | src/Worker.cpp:263-350 | an error message suspends at most once and never asks from a suspended client |
| `ClientBooks.ReactBooked` | src/Worker.cpp:147-472 | every step of a client accounts for its gauges, socket, account and requests |
| `ClientInvariants.ReactLoaded` | src/SimClient.hpp:261-267 | after every step a placed client's buffer carries its UUID, app id and current game token id |
| `ClientInvariants.SendDueEncodes` | src/SimClient.hpp:363-389 | a send from such a buffer is the pure encoding, with no residue of earlier sends or tokens |
| `ClientInvariants.ReactBoxed` | src/Worker.cpp:207-222 | in a narrow cube every step keeps position and box centre on the cube and records no reload |
| `ClientInvariants.ReactPaced` | src/Worker.cpp:207-213 | every step keeps the spacing of the send attempts |
| `ClientHistory.NoReload` | src/Worker.cpp:284-321 | over every life of a client in a narrow cube, all readings from one clock, no refusal is filed as a window reload |
| `ClientHistory.ReloadHappens` | src/Worker.cpp:284-321 | in every wider cube there is a life in which one is: the client wakes, is ticked in the same loop turn, drifts to the far face and is refused there after the grace window, on one clock that never runs backwards |
| `ClientHistory.ReloadIffWide` | src/Worker.cpp:284-321 | a window reload is possible if and only if volumeChunks exceeds the permission radius |
| `ClientHistory.RefreshAskedOnce` | src/Worker.cpp:422-434 | once asked for, a refresh is not asked for again until an answer succeeds, over any events |
| `Pacing.AttemptKeepsSpacing` | src/Worker.cpp:417-420 | an attempt advances the mark so that any k later attempts are at least k - 1 intervals on |
| `Pacing.ResumeKeepsSpacing` | src/Worker.cpp:207-213 | resetting the mark on re-activation keeps that spacing |
| `Pacing.BurstBound` | src/Worker.cpp:417-420 | spacing bounds the attempts in any window by W * hz + 2 |
| `Pacing.PhaseKept` | src/Worker.cpp:417-420 | over close ticks, mark and attempts stay in phase and the mark trails by less than an interval |
| `Pacing.SteadyRate` | src/Worker.cpp:417-420 | every run of the gate over ticks at most one interval apart makes W * hz attempts to within less than one, if and only if the mark trailed by less than an interval at its start |
| `SteadyPace.SpellIsGate` | src/Worker.cpp:403-420 | over any events through which a client stays ACTIVE, its attempts grow by those of the send gate over its ticks, and its mark is the gate's |
| `SteadyPace.SteadyAfterActivation` | src/Worker.cpp:199-213 | from any activation on, while the client stays ACTIVE and ticks are at most one interval apart, the attempts between any two moments are W * updateHz to within less than one |
| `SteadyPace.RunIsHistory` | src/Worker.cpp:474-495 | in any run of the whole system a client is what its own events made of it |
| `SteadyPace.SteadyInRun` | src/Worker.cpp:399-420 | the same steady rate for the client of a slot in a run of the whole system |
| `SteadyPace.StallLeavesFullLag` | src/Worker.cpp:417-420 | a history whose stall of exactly two intervals leaves the mark one interval behind, so that a second tick at the same instant is one more attempt |
| `WorkerThread.ControlQueue.Push` | src/Worker.hpp:40-46 | appends at the back and leaves the shutdown flag alone |
| `WorkerThread.ControlQueue.Pop` | src/Worker.hpp:49-56 | takes from the front, also after shutdown; None only when empty |
| `WorkerThread.ControlQueue.Shutdown` | src/Worker.hpp:58-64 | raises the flag and keeps what is queued |
| `WorkerThread.Worker.AddClient` | src/Worker.cpp:55-62 | queues one pending client |
| `WorkerThread.Worker.PostUpdate` | src/Worker.cpp:95-98 | appends one update to the inbox |
| `WorkerThread.Worker.ApplyPendingClients` | src/Worker.cpp:68-83 | appends every pending client in order; existing slots do not move |
| `WorkerThread.Worker.SuspendClient` | src/Worker.cpp:147-162 | the object performs exactly the suspension step, request and gauges included |
| `WorkerThread.Worker.ApplyUpdate` | src/Worker.cpp:171-196 | the object performs exactly the answer step for its slot |
| `WorkerThread.Worker.ApplyPendingUpdates` | src/Worker.cpp:164-197 | the whole inbox is applied in order, one step each |
| `WorkerThread.Worker.ActivateClient` | src/Worker.cpp:199-236 | one client's activation step, first placement or resume, socket success or failure |
| `WorkerThread.Worker.ActivateDueClients` | src/Worker.cpp:199-236 | the loop activates each slot once, in order |
| `WorkerThread.Worker.ClassifyRefusal` | src/Worker.cpp:266-321 | first contact by the first clock reading, then window reload or unexplained by the second, with the box re-centred only for a new episode |
| `WorkerThread.Worker.HandleError` | src/Worker.cpp:263-350 | classification followed by refresh, reassignment or counting, as one step |
| `WorkerThread.Worker.HandleDatagram` | src/Worker.cpp:238-377 | verification, then every member in order, as the datagram step of the model |
| `WorkerThread.Worker.PassSendGate` | src/Worker.cpp:417-434 | the pacing mark and the proactive refresh request |
| `WorkerThread.Worker.TransmitClient` | src/Worker.cpp:436-470 | advertise, move, build and hand over one update |
| `WorkerThread.Worker.HandOver` | src/Worker.cpp:457-470 | delivery clears the error count; failures suspend after three seconds' worth |
| `WorkerThread.Worker.SendDueUpdate` | src/Worker.cpp:403-470 | one client's turn of the send loop |
| `WorkerThread.Worker.SendDueUpdates` | src/Worker.cpp:399-472 | the loop gives each slot one turn, in order |
| `WorkerRuns.EntryIsRun` | src/Worker.cpp:147-472 | a ledger entry of the object is a client step followed by the pushes of its requests, in the interleaved system |
| `WorkerRuns.TurnIsRun` | src/Worker.cpp:478-485 | inbox, activations and sends of a loop turn are a run of the interleaved system by this worker alone, ending in the object's ledger with the shared queue, inbox empty and every request pushed |
| `WorkerRuns.DatagramIsRun` | src/Worker.cpp:379-397 | so is a datagram drained from an active client's socket |
| `ControlThread.PlaceWithRetries` | src/Harness.cpp:59-75 | placement succeeds at the first attempt that answers, and is given up exactly at the fifteenth refusal or at the first one after shutdown |
| `ControlThread.Serve` | src/Harness.cpp:17-87 | one request gives one update for the same slot and account; exactly when it fails; after a refresh it carries the new token, id and expiry, without one the old, the authorized or assigned server and the same game API; and how the four counters move |
| `ControlThread.DrainAfterShutdown` | src/Harness.cpp:17-87 | after shutdown every queued request is served once, in order, each answer in its worker's inbox |
| `CubeSlots.ScrambleUnscramble` | src/SimClient.hpp:174-195 | multiplying by 1 + n + n^2 modulo n^3 is undone by multiplying by 1 - n, for every n |
| `CubeSlots.UnscrambleScramble` | src/SimClient.hpp:174-195 | and the other way round |
| `CubeSlots.RawIsResidue` | src/SimClient.hpp:177 | the doubled C++ remainder is the mathematical residue, also for negative indices |
| `CubeSlots.SplitFlatten` | src/SimClient.hpp:186-188 | the mixed-radix split is inverse to flattening on the cube |
| `CubeSlots.FlattenSplit` | src/SimClient.hpp:186-188 | and the other way round on the slots |
| `CubeSlots.OwnerTakesCell` | src/SimClient.hpp:174-195 | in any n^3 consecutive indices, each cell has an explicitly computed owner |
| `CubeSlots.DistinctCells` | src/SimClient.hpp:174-195 | no two of them share a cell |
| `CubeSlots.WindowFillsCube` | src/SimClient.hpp:174-195 | any n^3 consecutive indices fill the cube exactly, every cell once |
| `CubeSlots.FirstClientsSpread` | src/SimClient.hpp:179-185 | index k < n stands on the diagonal cell (k, k, k), so n clients reach every column of all axes |
| `SparseHash.MixRoundTrip` | src/SimClient.hpp:201-206 | the 64-bit mix is injective: an explicit inverse undoes it on every word |
| `SparseHash.GroupsHashApart` | src/SimClient.hpp:207-214 | two hashed words are equal if and only if group and axis are |
| `SparseHash.AxesTakeTheirWords` | src/SimClient.hpp:209-213 | the first axis is the residue of the hash of the odd word of the group, the second of the even one |
| `SparseHash.GroupSharesChunk` | src/SimClient.hpp:207-214 | the members of a group get one chunk |
| `SparseHash.SparseChunkFor` | src/SimClient.hpp:207-214 | the chunk lies in [-range, range] on both axes |
| `Motion.PlacedInOwnChunk` | src/SimClient.hpp:174-195 | in a cube the first placement projects to the chunk of the client's cell, whatever the jitter |
| `Motion.FleetStandsApart` | src/SimClient.hpp:174-195 | any two of n^3 consecutive clients stand in different chunks |
| `Motion.BounceConfines` | src/SimClient.hpp:302-307 | a reflected value lies in the closed box however long the step, and an inside value is untouched |
| `Motion.WalkStaysConfined` | src/SimClient.hpp:288-360 | no sequence of ticks takes a client or its chunk off the cube by more than the closed upper face |
| `Motion.BounceReflects` | src/SimClient.hpp:324-329 | reflection as a law: inside values stay, others come back as far as they went out with the direction turned, and longer steps are held in the box |
| `Motion.CubeLaw` | src/SimClient.hpp:314-341 | in a cube each axis moves by direction times time times speed and is reflected at the faces; re-aiming, velocity and heading |
| `Motion.CubeFaces` | src/SimClient.hpp:320-323 | where the faces are |
| `Motion.SparseLaw` | src/SimClient.hpp:295-313 | the same on two axes inside the owned chunk |
| `Motion.SparseStaysHome` | src/SimClient.hpp:295-313 | no walk takes a sparse client out of its closed chunk |
| `Motion.PlaneLaw` | src/SimClient.hpp:342-358 | in the 2D walk a client moves straight and turns right round exactly when it has come to a chunk outside the spawn area |
| `Motion.ProjectProjects` | src/SimClient.hpp:271-286 | chunk and pose are the floor and the rest of the world position, with the height rule |
| `Motion.PastIsInside` | src/SimClient.hpp:281-284 | the rest is less than a chunk, and edge and rest make the position again |
| `Motion.PlacedInCube` | src/SimClient.hpp:174-195 | the spot of a client in its cell, axis by axis, and what its first placement sets |
| `Motion.PlacedOnGround` | src/SimClient.hpp:215-245 | where a sparse client and one of the 2D walk start |
| `Walker.BounceIn` | src/SimClient.hpp:324-329 | the assignments compute the reflection, inside the box |
| `Walker.SimBody.PlaceInCube` | src/SimClient.hpp:174-195 | the fields become the cube position of the index and nothing else changes |
| `Walker.SimBody.ProjectPose` | src/SimClient.hpp:271-286 | chunk and pose fields become the projection of the world position |
| `Walker.SimBody.InitMovement` | src/SimClient.hpp:227-257 | the three placement shapes, direction and re-aim time |
| `Walker.SimBody.MoveSparse` | src/SimClient.hpp:295-313 | the walk inside the owned chunk |
| `Walker.SimBody.MoveCube` | src/SimClient.hpp:314-341 | the 3D drift with reflection and re-aim |
| `Walker.SimBody.MoveWalk` | src/SimClient.hpp:342-358 | the 2D walk that turns back outside the spawn area |
| `Walker.SimBody.Walk` | src/SimClient.hpp:288-360 | a whole `updateWalk`, also when no time has passed |
| `Wire.TemplateCarries` | src/Wire.hpp:192-205 | a fresh template carries the session in both profiles |
| `Wire.PatchedPrefix` | src/Wire.hpp:207-243 | patching any buffer that carries the session gives exactly the signed prefix of the pure encoding |
| `Wire.FinalizeEncodes` | src/Wire.hpp:207-243 | whatever earlier sends left behind, the result is the pure encoding signed with this token, and the buffer still carries the session, also when signing fails |
| `Wire.EncodedVerifies` | src/Wire.hpp:338-346 | an encoding passes verification if and only if its tag is what the token signs |
| `Wire.EncodingDecodes` | src/Wire.hpp:163-191 | every identifying field can be read back from an encoding |
| `Wire.EncodingHoldsPose` | src/Wire.hpp:81-128 | every pose field of an encoding lies at its own offset, in both profiles |
| `Wire.InitTemplateFmt` | src/Wire.hpp:192-205 | the in-place builder writes the template |
| `Wire.FinalizeFmt` | src/Wire.hpp:207-243 | the in-place builder performs the patches and the signature |
| `Wire.InitTemplate` | src/Wire.hpp:246-261 | the older UE5-only builder writes the same template byte for byte |
| `Wire.FinalizeUE5` | src/Wire.hpp:263-285 | the older UE5-only builder leaves the same buffer byte for byte |
| `Bytes.I64RoundTrip` | src/Wire.hpp:163-170 | every 64-bit integer survives being written and read little-endian |
| `Bundle.WalkRoundTrip` | src/Wire.hpp:352-374 | walking a framed member list delivers exactly that list, zero-length members included |
| `Bundle.BundleRoundTrip` | src/Wire.hpp:352-374 | the same for a whole plain bundle |
| `Bundle.SignedBundleRoundTrip` | src/Wire.hpp:352-374 | a signed bundle round-trips if and only if it has a member |
| `Bundle.WalkConsumes` | src/Wire.hpp:352-374 | the body is the framing of what was delivered plus a leftover that holds no member |
| `Bundle.CompleteIffFramed` | src/Wire.hpp:352-374 | the walk reports success if and only if the body is the framing of the delivered list |
| `Bundle.DeliversLongestPrefix` | src/Wire.hpp:352-374 | every member list framed at the front is delivered, in order |
| `Bundle.ForEachMessage` | src/Wire.hpp:352-374 | the offset loop delivers that result, in bounds and terminating |
| `DerivedEmail.FormatRoundTrip` | src/Config.cpp:119-123 | the padded digits read back as the index, also beyond the pad width |
| `DerivedEmail.ReplaceInPlace` | src/Config.cpp:133-139 | the in-place find-and-replace loop terminates and replaces every match from left to right |
| `DerivedEmail.ReplaceIsJoinOfSplit` | src/Config.cpp:133-139 | substitution is joining the split text |
| `DerivedEmail.DerivedEmail` | src/Config.cpp:125-144 | the three substitutions in order |
| `DerivedEmail.AccountsDistinct` | src/Config.cpp:125-144 | two different indices derive different emails if and only if `{index}` survives the first two substitutions |
| `DerivedEmail.DerivedIs` | src/Config.cpp:125-144 | for a pattern naming local, index and domain in this order, the account is the part before the @, the padded index and the part after it, each in its place |
| `DerivedEmail.AddressParts` | src/Config.cpp:126-128 | which parts of an address these are, also without an @ |
| `DerivedEmail.FormatPads` | src/Config.cpp:119-123 | the padded index is at least as wide as asked, zeros in front, and no wider than its digits need |
| `Provisioning.LoadRoster` | src/Provisioner.cpp:187-209 | the constructor's loop loads the roster entry by entry |
| `Provisioning.LoadIsSound` | src/Provisioner.cpp:187-209 | an index is covered if and only if some entry for it is usable, and covered indices have usable credentials |
| `Provisioning.LastEntryWins` | src/Provisioner.cpp:187-208 | what the roster lists for an index is its last usable entry: session, or token with id and expiry |
| `Provisioning.LastEmailWins` | src/Provisioner.cpp:187-194 | and its email that of the last entry with a token that names one |
| `Provisioning.SourceIsDecided` | src/Provisioner.cpp:211-243 | only uncovered indices sign in; a covered one is refused if and only if it is listed under another email, or an app-token roster comes without any game API |
| `Provisioning.CountCovered` | src/Provisioner.cpp:464-484 | the count reaches the range size if and only if every index is covered |
| `Provisioning.CoveredIsReused` | src/Provisioner.cpp:211-243 | a covered index never needs a sign-in |
| `Provisioning.RunPoolInv` | src/Provisioner.cpp:492-562 | every interleaving of the threads keeps claims, slots, completeness and tallies |
| `Provisioning.EveryInterleavingProvisions` | src/Provisioner.cpp:485-579 | once all threads have left, a non-empty result has the right length, slot off holds index start + off with its derived email, on the roster's token where there is one; the three tallies rose by exactly the count, and reused by exactly the indices the roster serves |
| `Provisioning.OffsetsClaimedOnce` | src/Provisioner.cpp:492-497 | no two threads ever work on one offset |
| `Provisioning.ProvisionedAccountsDistinct` | src/Provisioner.cpp:498-501 | two slots of a range are two accounts |
| `Allocation.ProvisionsContract` | src/Provisioner.cpp:458-579 | a range refused for coverage, stopped, failed or complete meets one contract |
| `Allocation.IndicesAreContiguous` | src/Harness.cpp:198-241 | over start and any sequence of adds, the k-th client handed out is index base + k on worker (base + k) mod threads; nothing passes the limit; between adds exactly `used` are out |
| `Allocation.FailedAddConsumesNothing` | src/Harness.cpp:224-230 | after a failed add the next accepted one starts at the same index |
| `Allocation.SessionsAreBooked` | src/Harness.cpp:161-178 | with a required roster both minted tallies stay 0; without a failed range the tallies sum to the clients obtained |
| `Allocation.MintedBeforeIsFrozen` | src/Harness.cpp:161-178 | after the run has started, minted-before never changes |
| `Allocation.FleetAccountsDistinct` | src/Harness.cpp:198-241 | generators with disjoint index ranges never run the same email, nor does one of them twice |
| `Allocation.HandedClientsFillCube` | src/SimClient.hpp:171-195 | once n^3 clients are out, every chunk of the cube has one of them |
| `Allocation.AddedIsReachable` | src/Harness.cpp:218-241 | a whole add is a run of the allocation machine |
| `Allocation.Harness.Distribute` | src/Harness.cpp:113-125 | each client goes to its own worker's queue, in order, delayed by its ramp batch |
| `Allocation.RampSpreads` | src/Harness.cpp:115-124 | the first batch starts at once, and each client one ramp interval after the client a batch before it |
| `Allocation.Harness.RequestAdd` | src/Harness.cpp:198-216 | what is refused and why, and the new state when accepted |
| `Allocation.AddTakenIff` | src/Harness.cpp:198-210 | an add is taken if and only if it asks for someone, none is running and the limit allows it |
| `Allocation.Harness.RunAdd` | src/Harness.cpp:218-241 | failure releases the harness and consumes nothing; success hands out, then commits |
| `Allocation.Harness.Start` | src/Harness.cpp:161-178 | the start slice, an empty start and a failed start |
| `Percentile.FindBucket` | src/Stats.cpp:458-464 | the search finds the one bucket the latency belongs to |
| `Percentile.PercentileMs` | src/Stats.cpp:141-165 | the loop reads the interpolated value from the first bucket that reaches the target |
| `Percentile.PercentileInterpolates` | src/Stats.cpp:149-161 | the value lies as far between the bucket's edges as the target lies between the samples before and up to it; a target beyond gives the edge, an empty bucket its upper one |
| `Percentile.TargetIsShare` | src/Stats.cpp:142-146 | the target is the share p, brought into [0, 1], of the samples, and at least one |
| `Percentile.CumCounts` | src/Stats.cpp:446-466 | the first b buckets hold exactly the samples below the lower edge of bucket b |
| `Percentile.PercentileInRankedBucket` | src/Stats.cpp:141-165 | for any recorded latencies and any p, the value lies in the bucket of the sample of rank max(1, ceil(p N)) |
| `Percentile.PercentilesAreMonotone` | src/Stats.cpp:141-165 | for any histogram at all it is monotone in p and within [0, 4000] |
| `Snapshot.SummaryAppend` | src/Stats.cpp:213-251 | counting two stretches of events is adding their snapshots |
| `Snapshot.SummaryCounts` | src/Stats.hpp:119-156 | each counter of a summary is the total of its own events, each error row the number of its code |
| `Snapshot.SummaryLatencies` | src/Stats.cpp:446-466 | samples, sum, maximum and histogram of a summary are those of its latencies |
| `Snapshot.PlusCommutes` | src/Stats.cpp:213-251 | adding snapshots does not depend on order |
| `Snapshot.PlusAssociates` | src/Stats.cpp:213-251 | nor on grouping |
| `Snapshot.MinusUndoesPlus` | src/Stats.cpp:167-211 | subtraction gives back what was added if and only if the sign-in growth fits its range |
| `Snapshot.Accumulate` | src/Stats.cpp:241-246 | the array loops of `plus` |
| `Snapshot.Subtract` | src/Stats.cpp:197-204 | the array loops of `minus` |
| `Windows.WindowCountsSinceMark` | src/Stats.cpp:511-530 | for every order of a mark's and a reading's accesses among the events, even with the mark overtaking the reading, the window is the summary of exactly the events since the mark if and only if the sign-in growth fits its range and the largest latency between reset and reading of the maximum is the largest between the lifetime loads |
| `Windows.MaximumSlipsThroughMark` | src/Stats.cpp:511-522 | a latency inside a mark: one sample, maximum zero |
| `Windows.MaximumSlipsIntoReading` | src/Stats.cpp:524-530 | a latency inside a reading: no sample, maximum nine |
| `Windows.WindowsTile` | src/Stats.cpp:511-530 | consecutive windows add up to exactly what was counted since the first mark, and lifetime is the first origin plus all windows |
| `Windows.TornLoadsAreExact` | src/Stats.cpp:468-503 | with every counter, error code, bucket, sample count and sum loaded at a moment of its own, each difference is exactly what was counted between its two loads, without saturation, and 0 if the mark's load came last |
| `Windows.Stats.FetchAdd` | src/Stats.hpp:119-156 | any plain counter counts one event and leaves the open window's mark alone |
| `Windows.Stats.CountError` | src/Stats.hpp:139 | an error code counts one event in its own row |
| `Windows.Stats.RecordLatencyMs` | src/Stats.cpp:446-466 | records one latency, negative ones as 0, in both maxima and the right bucket |
| `Windows.Stats.MarkWindow` | src/Stats.cpp:511-522 | opens a window that has counted nothing |
| `Windows.Stats.LoadWindow` | src/Stats.cpp:524-530 | returns the summary of the events since the mark, exactly when the sign-in growth fits |
| `Windows.Stats.SetSignIn` | src/Stats.cpp:560-565 | stores the tallies as growth |
| `SnapshotJson.RowsRoundTrip` | src/Stats.cpp:74-91 | leaving out the zero rows of the error table loses nothing |
| `SnapshotJson.JsonRoundTrip` | src/Stats.cpp:253-309 | reading back a written snapshot restores it entirely |
| `SnapshotJson.DerivedFigures` | src/Stats.cpp:59-90 | under which keys the average, the three percentiles, the maximum and the unexplained refusals stand |
| `SnapshotJson.AverageIsMean` | src/Stats.cpp:62-64 | the average times the samples is the sum |
| `SnapshotJson.UnexplainedIsRest` | src/Stats.cpp:82-86 | unexplained and explained refusals make the refusals, unless the explanations exceed them |
| `SnapshotJson.HistogramRows` | src/Stats.cpp:51-58 | each histogram row has its count and its upper bound, the last none |
| `SnapshotJson.MissingCountsZero` | src/Stats.cpp:125-137 | a missing field counts 0 |
| `SnapshotJson.NoObjectIsZero` | src/Stats.cpp:255-257 | a document that is no object is an empty snapshot |
| `SnapshotJson.ReadHistogram` | src/Stats.cpp:284-290 | missing buckets read as 0, surplus ones are ignored |
| `SnapshotJson.ReadRows` | src/Stats.cpp:296-301 | rows out of range are ignored, later rows win |
| `SnapshotJson.WriteRows` | src/Stats.cpp:74-81 | one row per code seen, in code order |
| `FleetMerge.MergeFleetStats` | src/Stats.cpp:362-444 | the loop computes the merged report, and warns if and only if rung labels disagree |
| `FleetMerge.MergeAddsUp` | src/Stats.cpp:407-432 | used, limit, active, suspended and every rate of the merged report are the sums of the hosts', the interval the longest, busy if and only if some host is, and each replay label the common one or "mixed" |
| `FleetMerge.MergeRegroups` | src/Stats.cpp:362-444 | merging merged groups gives the same report as merging all hosts, whatever documents they sent |
| `FleetMerge.MergeIgnoresOrder` | src/Stats.cpp:362-444 | any order of the hosts gives the same counters, gauges, rates, window and labels, the rung label aside |
| `FleetMerge.MergeIsOneHost` | src/Stats.cpp:362-444 | the merged lifetime and window are those of one host that saw every event |
| `FleetMerge.FleetPercentile` | src/Stats.cpp:50-72 | a fleet percentile lies in the bucket of the ranked sample among all hosts' samples |
| `FleetMerge.GroupingLosesWarning` | src/Stats.cpp:374-378 | a disagreement inside a group is not reported once groups are merged |
| `FleetMerge.GroupingInventsWarning` | src/Stats.cpp:374-378 | a group without a window makes a warning out of hosts that agree |
| `FleetMerge.GroupsWarn` | src/Stats.cpp:374-378 | merging two merged groups warns if and only if their first labels differ |
| `FleetMerge.TogetherWarns` | src/Stats.cpp:374-378 | merging all hosts warns if and only if the first group disagrees or the second strays from its label |
| `FleetMerge.GroupingKeepsWarningIff` | src/Stats.cpp:374-378 | exactly when grouping leaves the warning as it is, in terms of the hosts' labels |
| `FleetMerge.MergedWindow` | src/Stats.cpp:379-398 | the merged window opens with the earliest host that opened one and lasts as long as the longest |
| `FleetMerge.MergedWindowCoversCommon` | src/Stats.cpp:379-398 | it contains the earliest host's window, and every instant common to all |
| `FleetMerge.MergedWindowCoversHost` | src/Stats.cpp:379-398 | it covers a given host's window if and only if that host's delay is at most the difference in length |
| `FleetMerge.MergedWindowIsNotUnion` | src/Stats.cpp:381-389 | two hosts whose merged window misses part of one of them |
| `RefusalRace.LifetimeIsExact` | src/Stats.cpp:491-503 | for every interleaving of handlers and loads, first contact plus window reload plus unexplained is the number of refusals |
| `RefusalRace.WindowIsExactIff` | src/Stats.cpp:82-86 | in every run, all windows opened by a snapshot are exact in every continuation if and only if, at its load of the codes, no handler was pending and neither explanation had moved since it was loaded |
| `RefusalRace.UncleanMarkClamps` | src/Stats.cpp:491-503 | after any other mark some continuation clamps |
| `RefusalRace.WindowCanClamp` | src/Stats.cpp:82-86 | for every n there is a run whose window has n explanations and no refusal |
| `RefusalRace.ExecInv` | src/Worker.cpp:263-321 | over every run, explanations plus undecided handlers never exceed the refusals counted |

## Left out

- HTTP, curl, JSON text, sockets, epoll, files, console and CSV output: each is a nondeterministic outcome or a structured value. JSON keys are an enumeration named after the strings.
- SHA-256 and HMAC internals, and the bit patterns of floats.
- Command line, environment and file layering, `validate`, the control server, `ctl` and `main`: flat branch lists and plumbing. The models take the values `validate` admits.
- Sign-in, mint, consent and replay-logging requests, and timestamp parsing: remote behaviour.
- Rounding of doubles: positions, pacing, percentiles and rates are exact reals.
- Overflow of 64-bit counters, and of the 32-bit sums `used_ + count` and of sign-in tallies: integers are unbounded there.
- Memory orders weaker than sequential consistency: each step is one access to shared state.
- Windows.WindowCountsSinceMark: a recorded latency is one event and a lifetime snapshot one load; their single accesses are taken apart only in `Windows.TornLoadsAreExact`, cell by cell.
- `setSignIn` copies tallies that only grow, which `Allocation` proves of the provisioner; how often it is called is not modelled.
- A suspension (gauge, state, socket and request) is one step of its worker; no other thread sees inside it except through the queue, whose push is a step of its own.
- The clients of a worker are values in a sequence that its methods rewrite slot by slot; pointers into the vector are not modelled.
- The bytes of CLIENT_CAPABILITIES: only their effect on the sequence number and their timing.
- Counters that feed nothing back, and logging.
- The hashed chunk of the sparse shape enters `Motion` as a drawn cell within range; `SparseHash` proves where it comes from.
- Confinement of the 2D walk: its direction flips on every tick spent outside, so uneven ticks give no bound.
- The interval rates of the reporter, and text labels of buckets and error codes.
- SnapshotJson.JsonRoundTrip: a negative float where a count is expected has no defined conversion in the program; the reader takes it as 0. Snapshots written by the program hold none.
- FleetMerge.MergeIgnoresOrder: the rung label is that of the first host, so it does depend on the order.
- Windows.WindowsTile: assumes each window's sign-in growth fits the cap of 2000000000 its subtraction applies; `Windows.WindowCountsSinceMark` shows that this is necessary.
