# srtla_send: a Dafny model of a bonded-link sender

srtla_send splits one SRT stream over several uplinks and merges what comes
back. This project models its sans-IO core and the parts of the shell that
decide protocol state, and proves properties of them that hold for every input,
every run or every reachable state.

`dafny verify dfyconfig.toml` checks the project.

## How it is laid out

Each component has a specification on values (records, step functions, run
predicates) and, where the program updates things in place, classes and methods
proved equal to those steps. The theorems are about the steps.

| modules | component |
|---|---|
| `Selection`, `SoleCarrier`, `Stall`, `Scheduler` | link selection: stall gate, silence pull, rejoin ramp, sole-carrier election, quality exclusion, ranking, hysteresis |
| `Classifier` | the weak-link filter: delay and share verdicts, probation, doubling backoff, delay tiers |
| `Registration`, `Lifecycle`, `BondRuns`, `Waits`, `Pacing`, `Housekeeping`, `Liveness` | REG1/REG2/REG3/REG_ERR/REG_NGP, the housekeeping tick, recovery and whole-bond re-home, over every interleaving |
| `Serial`, `Flow`, `Books`, `Congestion`, `Links`, `Connection`, `PacketHandler` | ACK, NAK and probe accounting on wrapping sequence numbers, per link and over the whole bond |
| `WindowedMin`, `ClientDedup`, `SequenceTracker`, `Kalman` | constant-space summaries of a history, against that history, and the RTT filter |
| `Codec`, `Handshake` | wire formats |

Three ideas recur. A run is a sequence of states and a sequence of events, and a
theorem about runs quantifies over both. `Links.Reachable` is the set of link
states some run ends in; `BondRuns.LinksStayReachable` shows a running bond stays
inside it, so the selection theorems apply to every moment of every bond. A
property that is false of the code is kept next to the input that breaks it and
the exact condition under which it holds: `Serial.AntisymmetricExceptAtHalf`,
`Flow.WalkEqualsSweepIff`, `SequenceTracker.CounterStaysExactIff`,
`Links.ModeBoundsWindowIff`, `Codec.NakIsReadWholeIff`, `Codec.NakCeilingIff`,
`BondRuns.RegErrDropsLiveLinkIff`, `Waits.WaitIsHeldIff`.

## Conventions

- f64 is `real`; rounding is not modelled.
- The clock is positive and never goes back, because 0 is a sentinel throughout;
  `now` plus a constant does not wrap.
- The outcome of a send or a socket rebuild, the resolver's answer, the probing
  check's own clock read, round-trip estimates, congestion targets and loss flags
  are inputs. The quality multiplier is any positive real.
- The fields of a connection are grouped into records, one per concern.
- Every uplink has an I/O entry, and its remote is stored by position.
- The uplink set is fixed: registration names uplinks by position.
- A REG2 frame is represented by whether it is long enough for the id.

## Where the code and its documentation part

- The tier cascade documents rungs at a quarter of the throughput
  (crates/srtla-core/src/selection/classifier.rs:17-37). The code never reaches
  them; `Classifier.QuarterShareRungsAreDead` gives the cascade it computes.
- Gating REG_ERR on the handshake phase is documented as leaving an established
  uplink unaffected (crates/srtla-core/src/registration/mod.rs:358-368). That
  holds unless the uplink owns the pending REG2 wait;
  `BondRuns.ConnectedUplinkMayOwnTheWait` is a run that gets there.
- The NAK cap is documented as a ceiling per packet
  (crates/srtla-protocol/src/parsers.rs:170-176). It limits ranges; single entries
  are never cut, so `Codec.SinglesPassTheCeiling` is a packet above it and
  `Codec.NakCeilingIff` says exactly which packets stay below.
- Fast recovery ends at a window of 12000 in the enhanced ACK and the time-based
  recovery (crates/srtla-core/src/connection/congestion/enhanced.rs:54-64). Global
  ACKs and classic earned ACKs do not look, and a recovery puts the window back to
  20000 without leaving the mode (crates/srtla-core/src/connection/mod.rs:1350-1402).
  `Links.ModeBoundsWindowIff` says exactly when the bound holds, and
  `Congestion.FastRecoveryOutlivesItsThreshold` and `Links.RecoveryKeepsModeOn` are
  the three ways past it.
- A REG2 wait is reported as timing out after 4 s
  (crates/srtla-core/src/registration/mod.rs:466-483). The time counts from the
  latest REG1, and housekeeping sends one whenever it renews the owner. An owner that
  was established, or whose socket is rebuilt, is released in bounded time
  (`Waits.EstablishedOwnerIsReleased`, `Waits.FirstTimeOwnerIsReleased`); one that never
  was and whose socket cannot be rebuilt may hold the slot for ever, and the other
  uplinks are sent nothing (`Waits.StuckOwnerHoldsTheSlot`).

## Model

| member | source | states |
|---|---|---|
| `Selection.SelectionNeverStarves` | crates/srtla-core/src/selection/mod.rs:42-145 | On reachable links, in both modes and with the guard on or off, selection returns a link if and only if some link is schedulable and not timed out, and that link is connected, ungated and not held out. |
| `Selection.SelectionIsNearBest` | crates/srtla-core/src/selection/enhanced.rs:342-535 | The returned link has the highest weighted score in classic mode; in enhanced mode 1.10 times its rank score reaches every ranked link. |
| `Selection.LateLinksCarryNothing` | crates/srtla-core/src/selection/enhanced.rs:363-438 | While a healthy, uncapped candidate exists, a late or lossy link is never the one returned. |
| `Selection.EnhancedPicks` | crates/srtla-core/src/selection/enhanced.rs:342-535 | The enhanced pass picks somebody exactly when there is a candidate, within the switch threshold of the top. |
| `Selection.ClassicPicks` | crates/srtla-core/src/selection/classic.rs:26-56 | The classic pass picks a highest weighted candidate exactly when there is a candidate. |
| `Selection.GateSpares` | crates/srtla-core/src/selection/mod.rs:111-145 | The stall gate never gates the last usable link: if any link is usable after it, one is still a candidate. |
| `Selection.CandidatesAfterGate` | crates/srtla-core/src/selection/mod.rs:111-145 | After the gate there is a candidate if and only if there was a usable link before it. |
| `Selection.GateFrame` | crates/srtla-core/src/selection/mod.rs:111-145 | The gate changes only timeout, budget, guard and ramp of a link. |
| `Selection.SomebodyIsRanked` | crates/srtla-core/src/selection/enhanced.rs:363-444 | Election, late exclusion and in-flight caps together never remove every candidate from the ranking. |
| `Selection.PreparedExclusion` | crates/srtla-core/src/selection/enhanced.rs:385-416 | A link is held out exactly when it is late beside a healthy one, or another link was elected sole carrier. |
| `Selection.SettlesNearTheTop` | crates/srtla-core/src/selection/enhanced.rs:483-534 | Hysteresis keeps a choice whose score, times 1.10, reaches every ranked score. |
| `Selection.RankScoreNonNegative` | crates/srtla-core/src/selection/enhanced.rs:451-480 | A ranked link of a healthy bond never has a negative rank score. |
| `Selection.MultiplierAtLeastOne` | crates/srtla-core/src/connection/mod.rs:152-163 | The configured link weight scales a score by between 1 and 10. |
| `Selection.GuardOffIsNonInterfering` | crates/srtla-core/src/selection/mod.rs:111-124 | With the guard off, two bonds that differ only in guard state select the same link and agree afterwards on everything but two event counters. |
| `Selection.CountersNeverMatter` | crates/srtla-core/src/selection/mod.rs:42-145 | Two bonds that differ only in those counters stay in step through any later selection, guard on or off. |
| `Selection.GuardOffErases` | crates/srtla-core/src/connection/mod.rs:1150-1167 | A guard-off pass leaves latch, pull, backoff and stall-armed ramp clear on every link. |
| `Selection.SelectionKeepsReachable` | crates/srtla-core/src/selection/mod.rs:42-145 | A selection takes reachable links to reachable links. |
| `Selection.SelectLeavesGuard` | crates/srtla-core/src/selection/mod.rs:42-105 | Neither ranking touches a guard: a selection leaves it as the gate did. |
| `Selection.SelectionsAreGuardRuns` | crates/srtla-core/src/selection/mod.rs:111-145 | The guards of one link over successive guard-on selections with fixed limits, from any reset on and whatever the gate flag does, are a run of guard passes, so the run theorems hold of the scheduler. |
| `Selection.EnhancedFollowsRoleMoves` | crates/srtla-core/src/selection/enhanced.rs:128-258 | What an enhanced pass does to the sole-carrier roles is an election followed by nothing else. |
| `Selection.ClassicFollowsRoleMoves` | crates/srtla-core/src/selection/mod.rs:42-105 | A classic pass clears every sole-carrier role. |
| `Selection.SelectionFollowsRoleMoves` | crates/srtla-core/src/selection/mod.rs:42-145 | To the roles, any selection is a gate that leaves them alone, one election or one classic clearing, and a ranking that leaves them alone. |
| `Selection.SelectionExtendsRoleRun` | crates/srtla-core/src/selection/mod.rs:42-145 | A whole selection carries on any run of role moves, so the sole-carrier theorems cover runs of selections. |
| `Scheduler.SelectConnectionIdx` | crates/srtla-core/src/selection/mod.rs:42-105 | The in-place selection over the connection objects leaves exactly the links, and returns exactly the index, of the selection on values. |
| `Scheduler.ApplyStallGate` | crates/srtla-core/src/selection/mod.rs:111-145 | The in-place gate passes leave the gated links of the specification. |
| `Scheduler.ElectSoleCarrier` | crates/srtla-core/src/selection/enhanced.rs:128-258 | The in-place election leaves the elected roles of the specification. |
| `Scheduler.RunEnhanced` | crates/srtla-core/src/selection/enhanced.rs:342-535 | The in-place enhanced pass is the enhanced selection on values. |
| `Scheduler.PickClassic` | crates/srtla-core/src/selection/classic.rs:26-48 | The scan returns the first highest weighted candidate. |
| `SoleCarrier.CarrierExistsIff` | crates/srtla-core/src/selection/enhanced.rs:128-245 | The election keeps a candidate exactly when there is one. |
| `SoleCarrier.HandoverIff` | crates/srtla-core/src/selection/enhanced.rs:85-98 | With an incumbent the role moves if and only if the incumbent served its 2000 ms and some candidate measures at least twice as fast. |
| `SoleCarrier.HandoverGoesToFastest` | crates/srtla-core/src/selection/enhanced.rs:128-245 | A handover goes to the lowest measured round trip. |
| `SoleCarrier.AtMostOneCarrier` | crates/srtla-core/src/selection/enhanced.rs:128-258 | Over any run of selections, mode switches and resets, no two links hold the role. |
| `SoleCarrier.ActCounts` | crates/srtla-core/src/connection/mod.rs:1091-1113 | The per-link counters together grow by one at each handover and at nothing else. |
| `SoleCarrier.HandoversAreSpaced` | crates/srtla-core/src/selection/enhanced.rs:56-98 | Any two handovers anywhere in the bond are at least 2000 ms apart. |
| `SoleCarrier.HandoverBudget` | crates/srtla-core/src/selection/enhanced.rs:128-258 | From any act of a run on, in a span of D ms the bond counts at most 1 + D/2000 handovers. |
| `Stall.ReleaseIsEarned` | crates/srtla-core/src/connection/mod.rs:967-1048 | The latch releases only at the end of an unbroken run of passes with recent, timely proof that spans the whole dwell. |
| `Stall.StallHoldsUntilEarned` | crates/srtla-core/src/connection/mod.rs:967-1048 | A pass that finds the link stalled latches it, and the latch is off later only if an unbroken run of good passes after the stall spanned a whole dwell. |
| `Stall.BackoffIsPowerOfTwo` | crates/srtla-core/src/connection/mod.rs:236-251 | Over any run the backoff after an engagement is a power of two at most 16, and changes at no other time. |
| `Stall.ShortRejoinDoubles` | crates/srtla-core/src/connection/mod.rs:236-251 | The first engagement since a reset waits the base dwell; after that, measured from the actual latest release, a rejoin of three staleness windows is forgiven and a shorter one doubles the wait the previous engagement set, up to 16. |
| `Stall.EngagementsAreSpaced` | crates/srtla-core/src/connection/mod.rs:926-1048 | Two engagements of one link are at least 2 * min(1000, ceiling) * backoff ms apart. |
| `Stall.ReleaseStampIsLatest` | crates/srtla-core/src/connection/mod.rs:1035-1047 | The release stamp is the time of the latest release of the run. |
| `Stall.PulledIffSilentSince` | crates/srtla-core/src/connection/mod.rs:1220-1272 | Over any run a link is pulled if and only if some pass found it silent and no pass since saw it speak within the window or lose its connection. |
| `Stall.PullActsNoLaterThanLatch` | crates/srtla-core/src/connection/mod.rs:1200-1209 | The silence window never exceeds the staleness window, nor that the ceiling. |
| `Stall.RampIsMonotone` | crates/srtla-core/src/connection/mod.rs:202-214 | The rejoin ramp stays between its floor and 1, never falls, and reaches 1 exactly at its end. |
| `Stall.RunningRampIsKept` | crates/srtla-core/src/connection/mod.rs:1066-1073 | Arming never restarts a running ramp, and a fresh one starts at the floor. |
| `Connection.SrtlaConnection.UpdateStallLatch` | crates/srtla-core/src/connection/mod.rs:967-1048 | The in-place latch update is the step the run theorems are about, ramp included. |
| `Connection.SrtlaConnection.UpdateSilencePull` | crates/srtla-core/src/connection/mod.rs:1246-1272 | The in-place pull update is the specified step. |
| `Connection.SrtlaConnection.ClearStallLatch` | crates/srtla-core/src/connection/mod.rs:1150-1167 | Clears latch, backoff and a stall-armed ramp, and nothing else. |
| `Classifier.DelayVerdictIff` | crates/srtla-core/src/selection/classifier.rs:353-437 | A verdict is a delay verdict if and only if a delay signal held on this tick and the last, inside or outside probation. |
| `Classifier.NoStarvation` | crates/srtla-core/src/selection/classifier.rs:418-460 | No 241 consecutive ticks are all share-weak. |
| `Classifier.RetestFollowsFullInterval` | crates/srtla-core/src/selection/classifier.rs:438-448 | A re-test window opens only after a full interval of share-weak ticks. |
| `Classifier.RetestWaitsDouble` | crates/srtla-core/src/selection/classifier.rs:134-141 | Between two re-tests with no healthy verdict outside a window, the gated wait doubles, up to 240 ticks. |
| `Classifier.HealthyForgives` | crates/srtla-core/src/selection/classifier.rs:449-460 | After a healthy verdict outside a window the next re-test comes after the base interval of share-weak ticks, however long the wait had grown. |
| `Classifier.TopLinkIsNeverShareWeak` | crates/srtla-core/src/selection/classifier.rs:312-385 | The connected link with the highest throughput is never share-weak, whatever the filter remembers. |
| `Classifier.TiersAreOrdered` | crates/srtla-core/src/selection/classifier.rs:518-528 | best <= safe <= max for every budget. |
| `Classifier.TightTierHasMajority` | crates/srtla-core/src/selection/classifier.rs:530-570 | A chosen tier below max is met by links carrying more than half the throughput. |
| `Classifier.QuarterShareRungsAreDead` | crates/srtla-core/src/selection/classifier.rs:530-570 | The cascade reduces to its upper rungs: the quarter-share rungs are unreachable. |
| `Classifier.WeakLinkFilter.Classify` | crates/srtla-core/src/selection/classifier.rs:226-485 | The pass gives each link it judges the verdict and memory of one tick of its own history, and forgets every link it does not see connected; a bypassed pass forgets all. |
| `Classifier.StretchIsARun` | crates/srtla-core/src/selection/classifier.rs:226-485 | Over any passes of the filter, every stretch in which it judges a link is a run of that link from a blank memory, so the run theorems hold of the filter. |
| `BondRuns.GrantsAreOneShot` | crates/srtla-core/src/registration/mod.rs:150-196 | Over every run, accepted REG3 frames of an uplink plus its outstanding grant never exceed the REG2s that armed it, and a connected uplink holds no grant. |
| `BondRuns.LiveLinkIgnoresReg3` | crates/srtla-core/src/registration/mod.rs:347-356 | In every reachable bond a REG3 on a connected uplink changes its link no more than any datagram. |
| `BondRuns.RegErrDropsLiveLinkIff` | crates/srtla-core/src/registration/mod.rs:369-397 | In every reachable bond a REG_ERR disconnects a connected uplink if and only if that uplink owns the pending REG2 wait, and leaves every other link, grant and wait alone. |
| `BondRuns.ConnectedUplinkMayOwnTheWait` | crates/srtla-core/src/registration/mod.rs:298-434 | A run that ends with a connected uplink owning the pending REG2 wait, so the condition of `BondRuns.RegErrDropsLiveLinkIff` does occur. |
| `BondRuns.OnlyTicksArm` | crates/srtla-core/src/registration/mod.rs:268-292 | Only a housekeeping tick arms a grant, at most twice, and only for an uplink its sweep leaves unconnected. |
| `BondRuns.GrantsAreSent` | src/sender/housekeeping.rs:86-182 | A tick arms no grant without sending the REG2 that asks for the REG3, and sends REG1 only to the uplink that owns the pending slot after its sweep and driver; that is the owner after the tick, unless the tick re-homes, which empties the slot. |
| `BondRuns.RedeemedCountsReg3` | crates/srtla-core/src/registration/mod.rs:347-356 | The redeemed history equals the number of accepted REG3 frames of the run. |
| `BondRuns.LapsedWaitClears` | crates/srtla-core/src/registration/mod.rs:466-483 | In every reachable bond a REG2 wait has a non-zero deadline, and a tick at or past it empties the slot. |
| `Waits.WaitDatesFromLatestReg1` | crates/srtla-core/src/registration/mod.rs:170-182 | Over every run the deadline of a REG2 wait is 4000 ms after the latest REG1 sent to its owner: every renewal moves it. |
| `Waits.WaitIsHeldIff` | src/sender/housekeeping.rs:27-105 | Over every run a wait is held throughout if and only if its owner sends no full REG2 and no REG_ERR, no tick re-homes, and every tick comes less than 4000 ms after the latest REG1 sent to the owner. |
| `Waits.EstablishedOwnerIsReleased` | crates/srtla-core/src/connection/reconnection.rs:38-98 | A wait whose owner was established before, and gets no REG3 meanwhile, is renewed at most four times (fewer after earlier failures): every tick that holds it comes within 16 s of the deadline it had. |
| `Waits.FirstTimeOwnerIsReleased` | src/sender/housekeeping.rs:58-105 | A wait whose owner was never established, and gets no REG3 meanwhile, is renewed at most once as long as every renewal rebuilds its socket and no flush on it fails. |
| `Waits.StuckTick` | src/sender/housekeeping.rs:58-113 | In a bond whose slot belongs to a never-established uplink and whose sockets cannot be rebuilt, every tick 500 to 3999 ms after the last REG1 that does not re-home renews the owner, moves the deadline and sends nobody else anything. |
| `Waits.StuckOwnerHoldsTheSlot` | src/sender/housekeeping.rs:58-113 | For a bond of any size and any number of ticks there is a run in which one uplink holds the slot through that many ticks a second apart, while every uplink is due a retry and no other is sent anything: the slot need not ever empty. |
| `BondRuns.LostLinksAreGranted` | src/sender/housekeeping.rs:58-113 | A timed-out uplink that is due a retry holds a REG3 grant after the sweep and driver, unless some uplink is awaiting REG2, and keeps it to the end of the tick exactly when the tick does not re-home. |
| `BondRuns.LinksStayReachable` | src/sender/housekeeping.rs:21-254 | Whatever the bond goes through, each uplink goes through a run of its own. |
| `BondRuns.NoUplinkInLimbo` | src/sender/uplink_recv.rs:55-84 | On every run an uplink that lost its registration is timed out at all times, and a usable one is connected. |
| `BondRuns.RunningBondNeverStarves` | crates/srtla-core/src/selection/mod.rs:42-145 | In every state of every run of the bond, selection finds a deliverable link if and only if one is usable. |
| `BondRuns.RehomeFollowsDeadRun` | src/sender/housekeeping.rs:185-248 | Every re-home ends an unbroken run of ticks, more than 10 s long, none of which found a live uplink. |
| `BondRuns.ProbesAreSpaced` | src/sender/rehome.rs:147-158 | Any two resolver probes, and so any two re-homes, are at least 60 s apart. |
| `BondRuns.OnlyRehomeMovesRemotes` | src/sender/rehome.rs:230-367 | A step changes the remotes if and only if it re-homes, and then every uplink is on one address that none was pinned to. |
| `BondRuns.BondIsNeverSplit` | src/sender/rehome.rs:310-325 | A bond that starts on one address is on one address after every step. |
| `Lifecycle.InvOverRuns` | crates/srtla-core/src/registration/mod.rs:150-196 | For every interleaving of ticks, frames, traffic and flush failures the manager stays sound and no connected uplink holds a grant. |
| `Lifecycle.SweepKeepsSound` | src/sender/housekeeping.rs:58-113 | A sweep arms only uplinks it renewed, never fills or empties the pending slot, and arms every renewed one when the slot is empty. |
| `Lifecycle.DriveSparesConnected` | crates/srtla-core/src/registration/mod.rs:278-290 | The REG2 broadcast arms no uplink that is connected in the snapshot taken just before. |
| `Lifecycle.ReceiverMoved` | src/sender/connections.rs:282-296 | If the receiver moved, the answer is not empty and its first address is none of those in use. |
| `Registration.FastestIsFastest` | crates/srtla-core/src/registration/probing.rs:111-133 | The probe selects the first of the shortest answered round trips, or nothing exactly when nobody answered. |
| `Registration.ReplyFillsOne` | crates/srtla-core/src/registration/probing.rs:70-88 | A probe reply fills in its own entry once and no other. |
| `Registration.RepliesKeepSound` | crates/srtla-core/src/registration/mod.rs:316-397 | REG2, REG3 and REG_ERR keep the manager sound, its grants paid for. |
| `Registration.NgpKeepsSound` | crates/srtla-core/src/registration/mod.rs:298-314 | REG_NGP, and the REG1 it may trigger, keep the manager sound. |
| `Registration.TimersKeepSound` | crates/srtla-core/src/registration/mod.rs:240-296 | Expiry, probe completion and the driver keep the manager sound. |
| `Registration.RestartKeepsSound` | crates/srtla-core/src/registration/mod.rs:124-139 | Winding the handshake back for a re-home and probing again leaves a sound manager. |
| `Registration.SrtlaRegistrationManager.BuildReg1For` | crates/srtla-core/src/registration/mod.rs:170-181 | Takes the pending slot and sets both deadlines. |
| `Registration.SrtlaRegistrationManager.RegDriverPendingSends` | crates/srtla-core/src/registration/mod.rs:240-296 | Decides REG1 and the REG2 broadcast, arming every uplink the snapshot does not show connected. |
| `Registration.SrtlaRegistrationManager.HandleRegNgp` | crates/srtla-core/src/registration/mod.rs:298-314 | A probe reply while probing; otherwise the REG1 target when nothing is active or pending. |
| `Registration.SrtlaRegistrationManager.Reg1IfNgpImmediate` | crates/srtla-core/src/registration/mod.rs:419-434 | Sends REG1 at once exactly when this uplink is the due target. |
| `Registration.SrtlaRegistrationManager.HandleReg2` | crates/srtla-core/src/registration/mod.rs:316-334 | Accepted only from the uplink that owns the pending slot. |
| `Registration.SrtlaRegistrationManager.HandleReg3` | crates/srtla-core/src/registration/mod.rs:347-356 | Accepted exactly when a grant is outstanding, which it uses up. |
| `Registration.SrtlaRegistrationManager.HandleRegErr` | crates/srtla-core/src/registration/mod.rs:369-397 | Accepted exactly when the uplink has a handshake in flight; clears only what is its own. |
| `Registration.SrtlaRegistrationManager.ClearPendingIfTimedOut` | crates/srtla-core/src/registration/mod.rs:466-483 | Empties an expired slot. |
| `Registration.SrtlaRegistrationManager.UpdateActiveConnections` | crates/srtla-core/src/registration/mod.rs:436-460 | Counts the connected uplinks and takes the snapshot. |
| `Registration.SrtlaRegistrationManager.RevokeGrant` | crates/srtla-core/src/registration/mod.rs:156-158 | Drops one grant and no other. |
| `Registration.SrtlaRegistrationManager.BeginProbing` | crates/srtla-core/src/registration/probing.rs:31-68 | Starts a probe per uplink exactly once, and completes at once without uplinks. |
| `Registration.SrtlaRegistrationManager.HandleProbeResponse` | crates/srtla-core/src/registration/probing.rs:70-88 | Records the first answer of an uplink. |
| `Registration.SrtlaRegistrationManager.CheckProbingComplete` | crates/srtla-core/src/registration/probing.rs:90-141 | Completes when all answered or the time is up, and selects the fastest or the first uplink. |
| `Registration.SrtlaRegistrationManager.Rehome` | crates/srtla-core/src/registration/mod.rs:124-139 | Back to the state before REG1; only the streamed-before flag and the counters survive. |
| `Housekeeping.HandleHousekeeping` | src/sender/housekeeping.rs:21-254 | One tick over the connection objects is one tick of the bond model; its error return is exactly an overdue bond that could not re-home, and its registration packets are exactly those of the model, in order. |
| `Housekeeping.SweepUplinks` | src/sender/housekeeping.rs:56-155 | The loop over the uplinks visits them one after the other. |
| `Housekeeping.VisitsAreTheSweep` | src/sender/housekeeping.rs:56-155 | Visiting in order equals visiting all at once: no visit depends on another link. |
| `Housekeeping.VisitUplink` | src/sender/housekeeping.rs:58-155 | Renews a timed-out uplink at its retry pace, strips its sequence ownership and resends REG1 or REG2; maintains a live one. |
| `Housekeeping.SettleBond` | src/sender/housekeeping.rs:185-254 | The all-failed timer, the give-up and the re-home it leads to. |
| `Housekeeping.DecideRehome` | src/sender/rehome.rs:230-290 | Spends a slot only when allowed, and moves only to the first of an answer that shares no address with the bond. |
| `Housekeeping.RehomeBond` | src/sender/rehome.rs:310-367 | All remotes, then all links, then registration: the moved bond of the model. |
| `Housekeeping.RehomeGate.ClaimProbe` | src/sender/rehome.rs:147-158 | Claims exactly when enabled and 60 s have passed, and stamps the claim. |
| `Housekeeping.HasReceiverMoved` | src/sender/connections.rs:282-296 | True exactly when every address in use is missing from a non-empty answer. |
| `Housekeeping.DriftIgnoresRepeats` | src/sender/rehome.rs:243-253 | Deduplicating the pinned addresses does not change the decision. |
| `Housekeeping.RebuildUplink` | src/sender/connections.rs:228-247 | State half of a socket rebuild: reset, ownership dropped, grace restarted. |
| `Housekeeping.ProcessUplinkPacket` | src/sender/uplink_recv.rs:45-84 | Registration effects of a datagram and the rule for which datagrams count as liveness. |
| `Liveness.NeverInLimbo` | crates/srtla-core/src/connection/mod.rs:1291-1402 | No interleaving of events leaves an established, unconnected link with a receive stamp, or a connected one without. |
| `Liveness.LostLinksAreTimedOut` | crates/srtla-core/src/connection/mod.rs:1291-1315 | A link that lost its registration is timed out at every instant; what is schedulable and not timed out is connected. |
| `Liveness.OnlyReg3Revives` | src/sender/uplink_recv.rs:55-84 | A lost link stays lost under every event but REG3. |
| `Liveness.AttemptsArePaced` | crates/srtla-core/src/connection/reconnection.rs:38-91 | Over any run in which attempts are made only when due, two attempts are at least 500 ms apart, and from the fifth since a registration on at least 4500 ms. |
| `Liveness.FailuresCountTries` | crates/srtla-core/src/connection/reconnection.rs:71-98 | The failure count is the number of attempts on the established link since its last registration. |
| `Pacing.UplinkLivesArePaced` | src/sender/housekeeping.rs:56-155 | The life of every uplink over any run of the bond on a clock that does not go back is a paced life, made of what each step was to that link. |
| `Pacing.RenewalsArePaced` | crates/srtla-core/src/connection/reconnection.rs:38-91 | Over any run of the bond, two ticks that renew the same uplink are at least 500 ms apart, and at least 4500 ms once it has failed four times since its registration. |
| `Flow.AcceptedAckPrunes` | crates/srtla-core/src/connection/ack_nak.rs:53-106 | An accepted ACK removes every logged number in (highest, ack], keeps every number serially after it with its stamp, and invents none, on both paths and across the wrap. |
| `Flow.WalkEqualsSweepIff` | crates/srtla-core/src/connection/ack_nak.rs:53-106 | The range walk and the full sweep leave the same log if and only if nothing logged lies in the stale band. |
| `Flow.StaleRegistrationSplitsThePaths` | crates/srtla-core/src/connection/ack_nak.rs:53-106 | A concrete log on which the two paths differ. |
| `Flow.AheadMakesPathsAgree` | crates/srtla-core/src/connection/ack_nak.rs:53-106 | If every registration was ahead of the highest ACK the path taken is invisible, and that survives the ACK. |
| `Flow.RecordProbeBounded` | crates/srtla-core/src/connection/mod.rs:631-646 | The probe log holds at most 128 entries and always the newest. |
| `Connection.SrtlaConnection.WalkRange` | crates/srtla-core/src/connection/ack_nak.rs:87-95 | Stepping one number at a time removes exactly the range. |
| `Connection.SrtlaConnection.HandleSrtAck` | crates/srtla-core/src/connection/ack_nak.rs:53-106 | The in-place cumulative ACK is the specified one. |
| `Connection.SrtlaConnection.HandleNak` | crates/srtla-core/src/connection/ack_nak.rs:110-120 | Charges the link exactly when the number is in its log. |
| `Connection.SrtlaConnection.HandleSrtlaAckSpecific` | crates/srtla-core/src/connection/ack_nak.rs:122-168 | Matches a probe first, then the packet log, with the proof and the round trip that go with it. |
| `Connection.SrtlaConnection.HandleSrtlaAckGlobal` | crates/srtla-core/src/connection/ack_nak.rs:170-179 | Lifts the window by one on a connected link that has been heard. |
| `Connection.SrtlaConnection.RecordProbe` | crates/srtla-core/src/connection/mod.rs:631-646 | Expires old probes when full, drops all if none is old, then records. |
| `Connection.SrtlaConnection.RecordRoundTrip` | crates/srtla-core/src/connection/rtt.rs:139-143 | Takes a round trip exactly when it is between 1 and 10000 ms, and stamps the measurement. |
| `Connection.SrtlaConnection.NoteKeepaliveSent` | crates/srtla-core/src/connection/mod.rs:697-717 | Starts waiting for an echo only when not waiting and more than 3 s after the last measurement, or with none yet. |
| `Connection.SrtlaConnection.HandleKeepaliveEcho` | crates/srtla-core/src/connection/mod.rs:823-834 | An echo is measured only when one is awaited, ends the wait either way, and is delivery proof whenever its stamp is plausible. |
| `Connection.SrtlaConnection.TakeBatch` | crates/srtla-core/src/connection/mod.rs:677-688 | Drains the queue and registers every tracked datagram of it. |
| `Connection.SrtlaConnection.MarkForRecovery` | crates/srtla-core/src/connection/mod.rs:1350-1402 | Recovery drops the log, queue, proof, guard, ramp and role, and ends the grace period. |
| `Connection.SrtlaConnection.ResetForReconnect` | crates/srtla-core/src/connection/mod.rs:1473-1484 | A reconnect also starts congestion control afresh and stamps the attempt. |
| `Connection.SrtlaConnection.CompleteRegistration` | src/sender/uplink_recv.rs:55-65 | REG3 clears pre-registration traffic and starts warming. |
| `Books.BooksAlwaysBalance` | src/sender/packet_handler.rs:31-122 | Over any run, on every link in-flight equals the log size and the probe log stays within 128, and NAKs charged for a number plus links still holding it never exceed its registrations. |
| `Books.NaksNeverExceedRegistrations` | src/sender/packet_handler.rs:31-51 | No number is ever charged more often than it was registered. |
| `Books.NakBlamesOne` | src/sender/packet_handler.rs:31-51 | A NAK changes at most one link, by that one number; if the ring knows a link of the bond, that one or nobody. |
| `Books.SrtlaAckMatchesOne` | src/sender/packet_handler.rs:94-118 | An SRTLA ACK consumes an entry on at most one link, the arrival link whenever it has the number. |
| `Books.MatchedIsComplete` | src/sender/packet_handler.rs:103-114 | The match fails exactly when no link of the bond has the number. |
| `Books.ProbesStayOut` | src/sender/packet_handler.rs:508-547 | On any run a packet log holds only numbers forwarded to that link as payload; probe copies never enter it. |
| `Books.ProbesSurviveIff` | crates/srtla-core/src/connection/mod.rs:631-646 | On any run a probe stays answerable with its own send time throughout if and only if no entry takes it: its own ACK matched on the link, a reset of the link, a probe of the same number at another time, or a probe recorded in a full log that is too old or makes the log start over. |
| `Books.RoundTripsAreEarned` | crates/srtla-core/src/connection/rtt.rs:139-259 | On any run a link hears of exactly one round trip per entry that credits it and of none otherwise, in order: an SRTLA ACK matched on it, a cumulative ACK the ring credits to it, or the echo of a keepalive it was waiting for, each with a plausible round trip. |
| `PacketHandler.AttributeNak` | src/sender/packet_handler.rs:31-51 | The tracker lookup, position search and fallback scan charge exactly the specified culprit. |
| `PacketHandler.ApplyCumulativeAck` | src/sender/packet_handler.rs:79-92 | The loop prunes every link and lets only the owner sample. |
| `PacketHandler.MatchSrtlaAck` | src/sender/packet_handler.rs:94-114 | Arrival link first, then the first other match. |
| `PacketHandler.ApplySrtlaAck` | src/sender/packet_handler.rs:94-118 | The match followed by the global lift. |
| `PacketHandler.FlushConnection` | src/sender/packet_handler.rs:557-597 | A refused batch leaves the link recovered and without sequence ownership. |
| `PacketHandler.ForwardViaConnection` | src/sender/packet_handler.rs:417-484 | A routed payload is queued, its owner recorded before any flush, and a full batch flushed. |
| `PacketHandler.SendStallProbes` | src/sender/packet_handler.rs:508-547 | A copy goes to exactly the other links that are held out, connected and due, and the ring never learns of one. |
| `PacketHandler.RecoverConnection` | src/sender/connections.rs:198-201 | Recovery and the loss of ownership go together. |
| `Congestion.WindowOverRuns` | crates/srtla-core/src/connection/congestion/mod.rs:54-113 | On every run of window events the window stays in 1000..60000, and between restarts and recovery resets only NAKs shrink it, by at most 100 each. |
| `Congestion.RunStaysTameIff` | crates/srtla-core/src/connection/congestion/enhanced.rs:23-193 | Fast recovery keeps the window below 12000 throughout a run of window events if and only if no recovery reset meets the mode, no global ACK meets it at 11999 and no classic earned ACK grows it from 11971 or more. |
| `Congestion.FastRecoveryOutlivesItsThreshold` | crates/srtla-core/src/connection/ack_nak.rs:170-179 | From a fresh link, 180 NAKs and then global ACKs alone, classic earned ACKs alone, or one recovery reset, put the window past 12000 with fast recovery on. |
| `Connection.SrtlaConnection.PerformWindowRecovery` | crates/srtla-core/src/connection/congestion/enhanced.rs:82-193 | The in-place recovery is the specified one. |
| `Connection.SrtlaConnection.CongestionNak` | crates/srtla-core/src/connection/congestion/mod.rs:57-113 | Burst counting, shrink and fast-recovery entry. |
| `Links.RunsStayHealthy` | crates/srtla-core/src/connection/mod.rs:291-593 | Every link, over every run of events, keeps its window in range, its counts exact and stays out of limbo. |
| `Links.ReachableStep` | crates/srtla-core/src/connection/mod.rs:291-593 | A legal event takes a reachable link to a reachable link. |
| `Links.HighestAckOnlyAdvances` | crates/srtla-core/src/connection/ack_nak.rs:53-106 | Over any run, between resets, no event of any kind moves the highest ACK other than serially forward or forgets it. |
| `Links.WindowIsARun` | crates/srtla-core/src/connection/mod.rs:1350-1402 | The window of a link over any run of link events is a run of window events from a fresh window, so it loses at most 100 per charged NAK between the resets that start it over. |
| `Links.ModeBoundsWindowIff` | crates/srtla-core/src/connection/congestion/enhanced.rs:23-193 | Over any run of a link from new, fast recovery keeps the window below 12000 throughout if and only if no recovery meets the mode, no heard global ACK meets it at 11999 and no matched classic ACK grows it from 11971 or more. |
| `Links.RecoveryKeepsModeOn` | crates/srtla-core/src/connection/mod.rs:1350-1402 | A run of a link from new that ends in a recovery with the window back at 20000 and fast recovery still on. |
| `Links.UsableLinksScore` | crates/srtla-core/src/connection/mod.rs:575-593 | A usable link is connected and never scores negative. |
| `Links.RoutingLowersScore` | crates/srtla-core/src/connection/mod.rs:580-593 | Queueing a packet never raises the score of its own link. |
| `Links.CapNeverStarves` | crates/srtla-core/src/selection/enhanced.rs:274-300 | The in-flight cap never blocks the first packet, nor a link without a rate. |
| `Links.SoftCapBounds` | crates/srtla-core/src/selection/enhanced.rs:309-321 | The soft cap stays between its floor and 1. |
| `Serial.AfterIsRfc1982` | crates/srtla-core/src/seq.rs:68-73 | The order is the one of section 3.2 of RFC 1982 with SERIAL_BITS = 31. |
| `Serial.DiffIsTheShortWay` | crates/srtla-core/src/seq.rs:55-66 | The distance is the one representative of the difference in the half-open band. |
| `Serial.AntisymmetricExceptAtHalf` | crates/srtla-core/src/seq.rs:55-66 | Antisymmetric if and only if the numbers are not exactly half the space apart. |
| `Serial.HalfSpaceBreaksAntisymmetry` | crates/srtla-core/src/seq.rs:55-66 | The pair that breaks it. |
| `Serial.NextAndPrevInvert` | crates/srtla-core/src/seq.rs:75-86 | Next and previous stay in the space and undo each other. |
| `Serial.NextClosesTheGap` | crates/srtla-core/src/seq.rs:75-80 | One step brings every number ahead exactly one closer. |
| `WindowedMin.RunSummary` | crates/srtla-core/src/windowed_min.rs:48-87 | After any history each slot is a real sample, the exact minimum of everything since, and the reported one is at most a window old. |
| `WindowedMin.SlotsAreOrdered` | crates/srtla-core/src/windowed_min.rs:48-87 | Times and values of the three slots are ordered. |
| `WindowedMin.MinimumIsHeld` | crates/srtla-core/src/windowed_min.rs:48-87 | A sample at or below the reported minimum is reported for a whole window while only larger ones arrive. |
| `WindowedMin.OverallMinimumTakesOver` | crates/srtla-core/src/windowed_min.rs:48-87 | A new overall minimum meets that take-over condition. |
| `WindowedMin.RunnersUpStayRecent` | crates/srtla-core/src/windowed_min.rs:48-87 | The runner-up slots are refreshed within a quarter and half a window. |
| `WindowedMin.WindowedMinimum.UpdateWith` | crates/srtla-core/src/windowed_min.rs:48-87 | The in-place update is the specified step and returns the reported minimum. |
| `ClientDedup.SuppressionIsJustified` | src/sender/client_dedup.rs:71-92 | A ring suppresses only what an unbounded memory would. |
| `ClientDedup.StaleCopyIsForwarded` | src/sender/client_dedup.rs:71-92 | A copy older than the window always gets through. |
| `ClientDedup.RingDecidesLikeFullLog` | src/sender/client_dedup.rs:71-92 | With at most N forwards in the window, N slots decide like the full log. |
| `ClientDedup.RingRefinesUnbounded` | src/sender/client_dedup.rs:71-92 | Over whole runs with at most N forwards in any window, the ring forwards exactly what unbounded memory does. |
| `ClientDedup.Ring.ShouldForward` | src/sender/client_dedup.rs:71-92 | The array and its index behave as the last N forwards. |
| `ClientDedup.Dedup.ShouldForwardAck` | src/sender/client_dedup.rs:116-120 | ACK decisions leave the NAK history alone. |
| `ClientDedup.Dedup.ShouldForwardNak` | src/sender/client_dedup.rs:122-125 | NAK decisions leave the ACK history alone. |
| `SequenceTracker.LookupMeansLatestInsert` | src/sender/sequence.rs:99-111 | The ring answers a link for a number if and only if the newest insertion of its class was that number on that link, at most 5 s old and not removed since. |
| `SequenceTracker.CounterIsExactIff` | src/sender/sequence.rs:76-120 | One operation keeps the counter equal to the occupied slots if and only if it does not use id 0, or removes it from a full or empty table. |
| `SequenceTracker.CounterStaysExactIff` | src/sender/sequence.rs:76-120 | From the empty table, the counter equals the occupied slots after every prefix of a history if and only if every operation of it either does not use id 0 or removes it from a table that is then full or empty. |
| `SequenceTracker.RealIdsCountExactly` | src/sender/sequence.rs:76-120 | After any history that never uses id 0 the counter is the number of occupied slots. |
| `SequenceTracker.TableIsWhatIsHeld` | src/sender/sequence.rs:76-120 | The table after a history holds in each slot what the history of that slot alone says. |
| `SequenceTracker.ZeroIdBreaksCounter` | src/sender/sequence.rs:76-97 | Inserting id 0 counts an entry no lookup returns. |
| `SequenceTracker.Tracker.InsertSeq` | src/sender/sequence.rs:76-97 | The array, counter and history move together. |
| `SequenceTracker.Tracker.Get` | src/sender/sequence.rs:99-111 | The array answers as the history does. |
| `SequenceTracker.Tracker.RemoveConnection` | src/sender/sequence.rs:113-120 | The sweep removes exactly the entries of one link. |
| `Kalman.RunKeepsInv` | crates/srtla-core/src/kalman.rs:59-108 | For every measurement sequence with positive noise the covariance is symmetric positive definite and its value variance at most r. |
| `Kalman.NextValueInterpolates` | crates/srtla-core/src/kalman.rs:59-108 | After any run the gain is strictly between 0 and 1, the small-denominator exit is dead and the new value lies between prediction and measurement. |
| `Kalman.PrecisionAdds` | crates/srtla-core/src/kalman.rs:88-107 | Posterior precision is prior precision plus 1/r in the value entry. |
| `Kalman.InformationForm` | crates/srtla-core/src/kalman.rs:88-107 | The posterior mean solves the information form of the update. |
| `Kalman.CorrectKeepsPositiveDefinite` | crates/srtla-core/src/kalman.rs:88-107 | The correction keeps the covariance positive definite, with value variance below r. |
| `Kalman.PredictKeepsPositiveDefinite` | crates/srtla-core/src/kalman.rs:72-86 | The prediction keeps it positive definite. |
| `Kalman.CorrectedDeterminant` | crates/srtla-core/src/kalman.rs:88-107 | The determinant shrinks by exactly r / (p00 + r). |
| `Kalman.RttConfigIsPositive` | crates/srtla-core/src/kalman.rs:23-29 | The RTT settings meet the conditions. |
| `Kalman.KalmanFilter.Update` | crates/srtla-core/src/kalman.rs:59-108 | The in-place update over the covariance array is the specified step. |
| `Kalman.KalmanFilter.Reset` | crates/srtla-core/src/kalman.rs:125-130 | Back to the initial state. |
| `Codec.NakRoundTripIff` | crates/srtla-protocol/src/parsers.rs:202-248 | A NAK built from valid singles and ranges parses back to exactly what it means if and only if no range reaches past the thousandth id. |
| `Codec.NakIsReadWholeIff` | crates/srtla-protocol/src/parsers.rs:202-248 | Any bytes at all yield exactly the ids their entries stand for if and only if no valid range in them reaches past the thousandth id. |
| `Codec.ExpandReadsEntries` | crates/srtla-protocol/src/parsers.rs:211-247 | On any words the expansion reads the valid entries one after the other, skipping an invalid range and a range cut off by the end. |
| `Codec.EntriesInvertEncoding` | crates/srtla-protocol/src/parsers.rs:211-247 | The entries read from an encoded loss list are the ones it was built from. |
| `Codec.ShortNakRoundTrips` | crates/srtla-protocol/src/parsers.rs:202-248 | A loss list of at most 1000 ids comes back whole. |
| `Codec.LongRangeIsCut` | crates/srtla-protocol/src/parsers.rs:202-248 | One range of 1001 ids reads back without its last. |
| `Codec.NakCeilingIff` | crates/srtla-protocol/src/parsers.rs:202-248 | Any bytes at all yield at most 1000 ids if and only if every single entry in them is preceded by fewer than 1000; invalid and truncated ranges count for nothing. |
| `Codec.SinglesPassTheCeiling` | crates/srtla-protocol/src/parsers.rs:202-248 | 1001 single entries yield 1001 ids. |
| `Codec.NakIsBounded` | crates/srtla-protocol/src/parsers.rs:202-248 | On any bytes every id is below 2^31 and the count is at most 1000 plus the single entries. |
| `Codec.ReadIsMeaningIff` | crates/srtla-protocol/src/parsers.rs:211-247 | Once a range crosses the cap, ids are missing for good. |
| `Codec.AckRoundTrip` | crates/srtla-protocol/src/parsers.rs:251-270 | An SRTLA ACK parses back to the numbers it was built from, including none. |
| `Codec.KeepaliveRoundTrip` | crates/srtla-protocol/src/builders.rs:48-69 | Timestamp and all six fields, signed ones included, read back from an extended keepalive whatever follows it. |
| `Codec.BeInvertsPut` | crates/srtla-protocol/src/parsers.rs:8-11 | Big-endian writing and reading are inverse on numbers that fit. |
| `Codec.PutInvertsBe` | crates/srtla-protocol/src/parsers.rs:8-11 | Reading and writing are inverse on bytes. |
| `Codec.ParseSrtNak` | crates/srtla-protocol/src/parsers.rs:202-248 | The index loop computes the specified expansion. |
| `Codec.PushRange` | crates/srtla-protocol/src/parsers.rs:235-245 | The inner loop pushes as much of the range as the cap admits. |
| `Codec.ParseSrtlaAck` | crates/srtla-protocol/src/parsers.rs:251-270 | The index loop reads every whole word after the header. |
| `Codec.ExtractKeepaliveTimestamp` | crates/srtla-protocol/src/parsers.rs:95-107 | The byte fold is the big-endian value. |
| `Codec.CreateAckPacket` | crates/srtla-protocol/src/builders.rs:73-84 | The buffer filled in place is the specified packet. |
| `Codec.CreateKeepalivePacketExt` | crates/srtla-protocol/src/builders.rs:48-69 | The buffer filled in place is the specified packet. |
| `Handshake.FirstBlockDecides` | crates/srtla-protocol/src/parsers.rs:68-93 | After any blocks of other kinds the first HSREQ or HSRSP block decides, whatever follows. |
| `Handshake.LatencyComesFromFirstBlock` | crates/srtla-protocol/src/parsers.rs:68-93 | On any bytes, a reported latency is that of the first such block of a well-formed prefix. |
| `Handshake.TruncationDeclaresNothing` | crates/srtla-protocol/src/parsers.rs:68-93 | Blocks that run out or are cut short declare nothing. |
| `Handshake.ConclusionDeclaresFirstBlock` | crates/srtla-protocol/src/parsers.rs:40-93 | A whole version 5 conclusion packet declares what its first such block says. |
| `Handshake.ParseSrtHandshakeLatency` | crates/srtla-protocol/src/parsers.rs:40-93 | The walk over the shrinking slice computes the specified latency and always ends. |

## Left out

- Sockets, `sendmmsg`/`recvmmsg`, platform binders and reader tasks: foreign calls; their results are inputs.
- The tokio loop, signals, DNS and real time: replaced by arbitrary sequences of steps with an injected clock and resolver answer.
- SIGHUP reload and uplink add/remove: positions name uplinks, so the set is fixed.
- Control plane, statistics, metrics, CLI and TOML: plumbing and rendering.
- `LinkCcController`: its outputs are arbitrary inputs.
- The exponential decay of the quality multiplier, EWMA, bitrate, jitter and batch regimes: transcendental or one-line arithmetic.
- The bytes of the SRTLA id, and which half of it a re-home keeps.
- When a keepalive is due, `last_sent` stamps, the probe cadence counter, batch thresholds and the choice of link before registration: each is a single comparison or counter with no rule that spans operations.
- Best-path and priority reporting, logging, hash functions (a packet hash is a number) and the network simulator.
- Counters kept only for display, such as completed re-homes and silence pulls.
