# Verified model of the remote robot server

This project models the two execution engines of the remote robot repository and the
transformations that feed them, and proves properties that hold over every run.

**v1 streaming runs.** A run is a state machine with one atomic action per lock section of
`robot_server.py` and per backend call between two of them; network threads and the executor
interleave freely. `RunModel` holds the machine, `RunSafety` the invariant that every step
keeps, `RunGuarantees` what follows from it. `RunHistory` and `RunStages` look at whole
histories: which bus reading the origin is, which tick and which heartbeat each target
belongs to, what made a run start, arm, fault and end. `RunCauses` gives the exact cause of
every fault code, `RunRefusals` that of every refused chunk, and `RunProgress` the run that
goes well. `ProgramRuns` and `Controller` are the same operations as classes that update
fields, proved against the machine. `Quintic`, `Protocol` and `Motion` carry the trajectory
mathematics over real numbers. `Client` puts the streaming client of `robot_client.py` at
the other end of a connection with any delays, on which replies may even overtake each
other.

**v2 orchestrated runs.** `Lease`, `Worker` and `Orchestrator` model the lease manager, the
in-memory worker and one leased run with its barriers, journal entries, failures and
coordinated stop; every worker reply, event, timeout and journal failure is an input.
`Punctual` says when a worker's phases begin and end. `Replies` says which answers each
journal entry vouches for, `Turns` what makes a run move on, fail and end, and `GoodRuns`
shows that every program can complete. `Fleet` runs any number of such runs over one lease
manager and shared workers, `Admissions` says which submissions begin a run. `Deliveries`,
`Evidence`, `Exchanges` and `Answers` tie what a run's journal says to what its workers
delivered, and the start times it judges to the wake-ups of their phase tasks;
`SharedWorkers` and `Undeclared` show what sharing a worker does to the barriers.

**Registry and compiler.** `Registry` is the node graph with its depth-first check,
`Walkers`, `Manifests` and `Aliases` the separately written walks over it, `RolePath` dotted
paths. `Values`, `Compiler` and `Artifact` take an arbitrary decoded value through
compilation, rendering, digests and validation by recompilation; `Refusals` gives the code
of everything the compiler refuses, and `ArtifactFacts` says what each field of an artifact
holds. `RegistryViews` compares the server's registry with a client's downloaded manifest.
`Requirements` derives the lease request and the worker plans of an accepted program, and
closes the argument about exclusive workers.

**Journal.** `Journal` is the framed log and its recovery, `JournalStore` the store with any
number of appends, restarts and closings.

SHA-256, canonical CBOR and Python's text and float conversions are parameters. A few
hypotheses about them appear, each written in the lemma that needs it: decoding undoes
encoding, a journal digest has 32 bytes and the journal header fits a frame (recovery);
decoding undoes encoding of the artifact in question (`WriteThenRead`); no other compiler
output has the artifact's digest (`ValidateIff`); a phase digest has at least 12
characters (execution ids).

Where the code does less than one might expect, the model follows the code and a lemma
shows it:

- a first event that cannot be framed leaves an empty entry in memory that the file does
  not have (`OversizedEventLeavesEmptyEntry`; `EmptyEntryExactly` says when, and
  `FileIsMemory` that nothing else can differ);
- a worker that is offered an invalid plan while prepared stays prepared without any plan
  (`PreparedWithoutPlan`; `PlanLostExactly` says when);
- before `start`, a prebuffer chunk can be refused as QUEUE_FULL when it ends beyond the
  horizon (`PrebufferCanOverflow`; `PrebufferQueueFullIff` says when); after `start` this cannot
  happen;
- validation compares bodies with Python's loose equality, so only the digest tells 1 from
  1.0 (`CollisionsAdmitMore`; `ValidateIff` when digests do not collide);
- the orchestrator's lock walk does not look at the last segment, so it accepts paths whose
  last segment is no group, even an empty one (`LockWalkAcceptsUnknownGroup`;
  `LockWalkIsLaxer` says when); accepted programs hold no such path;
- the shipped SO-101 backend swallows a failing torque disable when it closes, so a run can
  end with its flag off and its motors on, and the next run is opened all the same
  (`TerminalCanBeHot`, `NextRunBesideHotMotors`; `TerminalIsHotExactly` says when);
- a backend whose `close` raises would leave the executor dead and the run not terminal for
  good, so that the controller refuses every later run (`CrashIsReachable`,
  `ControllerCanBlock`; `CrashExactly`, `CrashIsForever` and `CrashBlocksForever` say when
  and for how long). Neither shipped backend raises there; another `MotorBackend` may;
- of two overlapping stops of one worker the first may return late and leave alive a task that
  was started in between; that task can begin a later phase before its deadline
  (`OverlappingStopsStartEarly`; `OnlyOrphansStartEarly` says that nothing else can, and
  `CalmStartsOnTime` that no phase is early unless a start call is made while a stop waits);
- a start call starts whatever plan the worker holds, and identities are compared only
  afterwards, so on a worker whose node declares neither a resource nor a safety domain
  one run can start another's phase ahead of that run's barrier (`BarrierFailsUnguarded`;
  `ForeignStartExactly` says when, and `DeclaredBarrierHolds` that a declaration rules it
  out).

## Model

| member | source | states |
|---|---|---|
| `Quintic.BlendRange` | robot_protocol.py:296-303 | the blend weight of a normalised time in [0, 1] lies in [0, 1], so an interpolated pose is a convex combination |
| `Quintic.BlendSlope` | robot_protocol.py:204-216 | between any two normalised times the blend rises by at most 1.875 times the elapsed fraction, so 1.875 is a sound peak-velocity factor |
| `Quintic.BlendCurvature` | robot_protocol.py:204-222 | the second difference of the blend over any three equally spaced times is at most 5.773503 h², so the rounded constant is a sound peak-acceleration factor |
| `Quintic.BlendAtRest` | robot_protocol.py:296-303 | the blend leaves its start and reaches its end at rest and without acceleration: near either end it is of third order |
| `Quintic.PeakVelocityIsNeeded` | robot_protocol.py:204-216 | no factor below 1.875 would be sound: for each there is a stretch on which the blend rises faster |
| `Protocol.ValidatePosition` | robot_protocol.py:180-194 | the joint loop rejects with LIMIT_VIOLATION exactly the poses outside the absolute limits (or beyond the relative range) |
| `Protocol.RateVerdict` | robot_protocol.py:204-222 | scanning the joints passes exactly when every joint respects both rate limits; otherwise the first offending joint decides the code, velocity before acceleration |
| `Protocol.SegmentVerdict` | robot_protocol.py:196-222 | a segment passes exactly when it lasts at least the minimum and every joint respects the velocity and acceleration limits |
| `Protocol.ValidateSegment` | robot_protocol.py:196-222 | the loop returns the verdict of the segment specification |
| `Protocol.ValidatePoints` | robot_protocol.py:269-293 | accepts exactly the programs that start at zero, are within size and duration, and whose every point and segment is valid; a refusal carries the code of the program as a whole, else that of the first bad point, else SCHEMA_INVALID for a single point |
| `Protocol.TimesIncrease` | robot_protocol.py:196-203 | accepted times increase strictly between any two points, however far apart |
| `Protocol.TrajectoryPrefix` | robot_protocol.py:269-293 | every prefix of a valid trajectory is a valid trajectory |
| `Motion.ActiveUnique` | robot_server.py:570-571 | at most one segment index is right for a given time |
| `Motion.CarriedSearchIsFresh` | robot_server.py:570-571 | a search resumed from any index that is not past the time finds the index a search from zero finds |
| `Motion.PositionExtends` | robot_server.py:567-571 | appending points never changes the motion already described by the earlier ones |
| `Motion.InterpolateInLimits` | robot_protocol.py:296-303 | when both ends of a segment, shifted by the origin, are within the joint limits, so is every interpolated pose between them |
| `Motion.WholeMotionVelocity` | robot_protocol.py:196-222 | over any stretch of time of a validated trajectory of any length, across any number of segments, no joint moves more than max_velocity times the elapsed time |
| `Motion.SegmentAcceleration` | robot_protocol.py:204-222 | for any three equally spaced times in one validated segment the second difference of each joint is at most max_acceleration h² |
| `RunModel.PointVerdict` | robot_server.py:350-371 | a chunk point passes exactly when it continues the buffer, is within limits, and its resolved pose is within limits once an origin is known |
| `RunSafety.ScanIff` | robot_server.py:348-372 | scanning a chunk behind a buffer passes exactly when the extended buffer is a valid trajectory and all new points resolve within limits |
| `RunSafety.PassMeansFits` | robot_server.py:335-401 | an admitted chunk is the expected one, arrives in a receiving state, keeps the buffer valid and within every size, duration and horizon bound |
| `RunRefusals.RefusedExactly` | robot_server.py:324-401 | an append is refused with a given code exactly when it is a cause of that code: what is looked at later counts only when all that is looked at earlier is in order, and of the points the first bad one decides |
| `RunRefusals.PointCode` | robot_server.py:348-372 | a point is refused with a given code exactly when it is a cause of that code: its time, its start, the first joint that is too fast or accelerates too hard, or its own or resolved position |
| `RunRefusals.StartRefusedExactly` | robot_server.py:416-440 | a start is a conflict exactly when the run is not buffering any more, and not ready exactly when it is but has too little of its program |
| `RunSafety.AppendKeeps` | robot_server.py:324-414 | every append, accepted, repeated or rejected, keeps the invariant of the run |
| `RunSafety.TickSegment` | robot_server.py:554-580 | the segment index carried from tick to tick equals the one a fresh search of the snapshot finds, in every reachable tick |
| `RunSafety.TickTarget` | robot_server.py:582-607 | the target of a tick is the trajectory value at the cursor, resolved against the origin, and lies within the joint limits |
| `RunSafety.StepKeeps` | robot_server.py:324-700 | every atomic step of the network side and of the executor keeps the whole invariant: buffer, receipts, cursor, control state, torque, tick and sent targets |
| `RunSafety.Reachable` | robot_server.py:275-322 | the invariant holds after every interleaving of all these steps from a new run |
| `RunGuarantees.EveryTargetInLimits` | robot_server.py:348-372 | in every interleaving and both coordinate modes, every trajectory target sent is within the absolute joint limits |
| `RunGuarantees.CommandedVelocity` | robot_server.py:554-607 | any two targets of a run, any number of ticks and chunks apart, respect the velocity limit |
| `RunGuarantees.TargetNearStart` | robot_server.py:520-535 | every target, the first included, lies no further from the origin than the start tolerance (1e-9 in relative mode) plus the distance the velocity limit allows by its time; the origin is the measured pose by RunHistory.OriginIsMeasured |
| `RunHistory.OriginIsMeasured` | robot_server.py:514-523 | in every history the origin of a run is the pose q of the Open(Pose(q)) action that took effect |
| `RunHistory.TargetFromMeasuredPose` | robot_server.py:520-535 | every target is the trajectory's own pose at its time, moved in relative mode by the pose that this Open action reported, and no further from that reported pose than the start tolerance and the velocity limit allow |
| `RunHistory.TargetBelongsToTick` | robot_server.py:554-580 | in every history each target was sent in a tick begun by a BeginTick(now) action of the loop entered by EnterRunning(s), under a time of max(0, now - s), or under that of the last point when the program is complete and that time is past its end |
| `RunStages.TargetsAreFresh` | robot_server.py:559-566 | in every history the tick of each target passed its heartbeat check within the timeout of the last heartbeat before it, unless a complete program was allowed to finish alone |
| `RunStages.BeatsAreHeard` | robot_server.py:442-450 | the time the watchdog compares with is that of the last heartbeat of the history |
| `RunStages.TrackingErrorExactly` | robot_server.py:587-607 | in every history TRACKING_ERROR is raised exactly by the fifth tick in a row whose reading is off the target on a body joint or, with a gripper limit, on the gripper |
| `RunStages.CounterIsStreak` | robot_server.py:587-594 | the counter carried from tick to tick is the number of ticks in a row, up to now, whose reading was off the target |
| `RunCauses.EndsExactly` | robot_server.py:511-676 | in every reachable state a step ends the run with a given fault code exactly when it is one of that code's causes, and ends it normally exactly after the last point was sent; only CANCELLED ends as stopped |
| `RunStages.StartsExactly` | robot_server.py:416-440 | a run begins to arm exactly on a start of a buffering run with two points that is complete or, when streaming, filled up to the start buffer |
| `RunStages.AlwaysReady` | robot_server.py:416-440 | in every history whatever has started has its whole program when sealed, at least the start buffer when streaming |
| `RunStages.StopsExactly` | robot_server.py:452-473 | the stop request is raised exactly by a stop call or by a connection lost while arming, and never withdrawn |
| `RunStages.TorqueExactly` | robot_server.py:537-540 | torque goes on exactly when the backend has enabled it beyond the stop gate, and its flag goes off exactly when a close returns; the backend is held, and the motors are energised, exactly as the calls on it left them |
| `RunStages.StopBeforeTorque` | robot_server.py:537-540 | a stop that comes before the gate wins: whatever follows, torque is never enabled and nothing is sent |
| `RunStages.CursorExactly` | robot_server.py:609-633 | the cursor moves exactly when a tick that has sent its target is over, be it the last one or one that has taken too long, and then to that tick's time |
| `RunStages.TerminatesExactly` | robot_server.py:663-676 | a run ends exactly when its executor reports its outcome, which is then the state, or when the connection is lost before the start |
| `RunProgress.Arms` | robot_server.py:511-552 | a loaded run that is started, finds the arm in a good place and is not stopped enters its loop with torque on and nothing sent |
| `RunProgress.OrdinaryTick` | robot_server.py:554-633 | an ordinary tick sends the prescribed pose at the elapsed time, stores that time and leaves the run ready for the next tick |
| `RunProgress.GoodRunCompletes` | robot_server.py:511-676 | a complete program started from a good pose, ticked at any instants with fresh heartbeats and readings near the targets, and once past its end, completes; what it sent is the prescribed pose of every tick and then the last point |
| `RunGuarantees.TerminalIsFinal` | robot_server.py:663-700 | terminal states are absorbing: nothing more is sent, the torque flag is off, and the motors stay as the close left them |
| `RunGuarantees.TerminalIsHotExactly` | robot_server.py:174-186 | a run that has ended has its motors energised exactly when its close returned without having switched them off |
| `RunGuarantees.TerminalCanBeHot` | robot_server.py:174-186 | an enabled and stopped run whose close fails to disable the torque and returns ends as stopped, flag off, motors on |
| `RunGuarantees.StopHalts` | robot_server.py:452-462 | once a stop is set, a tick begun later sends no target; only a tick already past its stop check may send one more |
| `RunGuarantees.CompletedMeansWholeProgram` | robot_server.py:573-578 | completed implies that the whole digest-matched valid program was received and its last point was the last target |
| `RunGuarantees.UnderrunExactly` | robot_server.py:573-580 | BUFFER_UNDERRUN is raised exactly when the tick is past the last point of a buffer that is not final |
| `RunGuarantees.CrashExactly` | robot_server.py:686-700 | the executor dies exactly in a close that raises while a backend is attached |
| `RunGuarantees.CrashIsForever` | robot_server.py:663-676 | from then on, whatever happens, the state never becomes terminal and nothing more is sent |
| `RunGuarantees.CrashIsReachable` | robot_server.py:511-523 | with a backend whose close raises (neither shipped one does), an ordinary upload and start and a bus without a pose lead there |
| `RunGuarantees.OnlyGrows` | robot_server.py:391-414 | buffer and cursor only move forward, and receipts are never revised |
| `RunGuarantees.ResendIsIdempotent` | robot_server.py:335-342 | resending an accepted chunk at any later time and in any state returns the original receipt and changes nothing |
| `RunStages.ReuseIsRefused` | robot_server.py:335-342 | at any later time the number of an accepted chunk is answered with the original receipt for data of the same digest, with DUPLICATE_CONFLICT for any other, and the run does not change |
| `RunStages.ReceiptTells` | robot_server.py:391-414 | what the receipt of a new chunk says is true of the buffer it leaves: its end, the cursor, the time queued ahead, the horizon left, and the final flag |
| `RunGuarantees.HorizonBalance` | robot_server.py:494-497 | in every reachable streaming run, queued-ahead plus available horizon equals max_horizon |
| `RunGuarantees.ChunkedUploadIsWholeValidation` | robot_server.py:350-401 | a fresh sealed run accepts a program cut into any admissible chunks exactly when the program validates as a whole; the buffer then equals the program |
| `RunGuarantees.SplitIsPartition` | robot_client.py:146-147 | split_chunks yields non-empty chunks of at most the given size, all but the last full, that concatenate to the program |
| `RunGuarantees.SplitUpload` | robot_client.py:146-147 | uploading the chunks of split_chunks succeeds exactly when the program validates |
| `ProgramRuns.ProgramRun.constructor` | robot_server.py:278-322 | a new run is empty, cold, buffering, and satisfies the invariant |
| `ProgramRuns.ProgramRun.ValidateResolvedPosition` | robot_server.py:499-509 | the joint loop passes exactly when the resolved pose is within limits, or nothing is to be resolved yet |
| `ProgramRuns.ProgramRun.ValidateChunk` | robot_server.py:355-372 | the loop over a chunk returns the verdict of its first bad point |
| `ProgramRuns.ProgramRun.AdmitChunk` | robot_server.py:343-389 | all checks made before a chunk is stored, in order, with their codes |
| `ProgramRuns.ProgramRun.StoreChunk` | robot_server.py:391-414 | stores the chunk and its receipt; after a final digest mismatch the run is exactly as before |
| `ProgramRuns.ProgramRun.AppendChunk` | robot_server.py:324-414 | the run changes exactly when a chunk is accepted for the first time; every rejection leaves it unchanged; repeats return the stored receipt |
| `ProgramRuns.ProgramRun.AvailableHorizon` | robot_server.py:494-497 | never negative and at most the horizon; in a streaming run a chunk fits the horizon exactly when it ends at most this far beyond the buffer |
| `ProgramRuns.ProgramRun.Begin` | robot_server.py:416-440 | start succeeds exactly from a buffering run with enough points (the whole program when sealed, the start buffer when streaming) |
| `ProgramRuns.ProgramRun.TakeHeartbeat` | robot_server.py:442-450 | records the heartbeat time and nothing else |
| `ProgramRuns.ProgramRun.AskToStop` | robot_server.py:452-462 | sets the stop request and nothing else |
| `ProgramRuns.ProgramRun.LoseConnection` | robot_server.py:464-473 | a buffering run is stopped for good, an arming run is asked to stop, any other is left to its watchdog |
| `ProgramRuns.ProgramRun.OpenBackend` | robot_server.py:514-523 | the measured pose becomes the origin and the points are copied in one step, as RunHistory.OriginIsMeasured states over every history; a failing bus faults the run |
| `ProgramRuns.ProgramRun.CheckStart` | robot_server.py:525-535 | absolute runs must start near the measured pose, relative runs must resolve within limits at every buffered point |
| `ProgramRuns.ProgramRun.PassStopGate` | robot_server.py:537-538 | a stop set before torque enable cancels the run |
| `ProgramRuns.ProgramRun.EnableTorque` | robot_server.py:539-540 | torque is flagged on only after the backend has enabled it |
| `ProgramRuns.ProgramRun.EnterLoop` | robot_server.py:541-552 | the run becomes running and the tick clock starts |
| `ProgramRuns.ProgramRun.StartTick` | robot_server.py:554-558 | a tick begins only if no stop is set |
| `ProgramRuns.ProgramRun.WatchHeartbeat` | robot_server.py:559-566 | a lapsed heartbeat faults the run unless a complete program may finish alone; otherwise the tick gets the time since the loop was entered, as RunHistory.TargetBelongsToTick states over every history |
| `ProgramRuns.ProgramRun.CopyBuffer` | robot_server.py:567-569 | buffer and final flag are copied together |
| `ProgramRuns.ProgramRun.FindSegment` | robot_server.py:570-571 | the loop, resumed from the last index, returns the index of a fresh search |
| `ProgramRuns.ProgramRun.ExceedsTracking` | robot_server.py:587-593 | the tracking test over the body joints and the optional gripper limit |
| `ProgramRuns.ProgramRun.ResolveTarget` | robot_server.py:678-684 | once the start checks are passed, every pose of the buffered motion, at a knot or between two, resolves and lies within the joint limits |
| `ProgramRuns.ProgramRun.DriveTick` | robot_server.py:570-607 | one tick: last point, interpolated target, underrun or tracking fault, as specified, keeping the invariant |
| `ProgramRuns.ProgramRun.StoreCursor` | robot_server.py:609-633 | the cursor is stored after the send; the last tick completes the run, an overrun faults it |
| `ProgramRuns.ProgramRun.CloseBackend` | robot_server.py:686-700 | a close that returns clears the flag, whether or not the motors are off; one that raises leaves the executor dead with the run not terminal |
| `ProgramRuns.ProgramRun.ReportOutcome` | robot_server.py:663-676 | the outcome becomes the state only after the backend is closed |
| `Controller.AtMostOneRunEnabled` | robot_server.py:728-768 | across all runs ever opened, at most one has its torque flag set, and it is the active one |
| `Controller.EndedRunIsHotExactly` | robot_server.py:174-186 | in every history of a controller, a run that has ended has energised motors exactly when its own close returned leaving them on |
| `Controller.AtMostOneRunEnergised` | robot_server.py:728-768 | if every close that returns has switched the torque off, at most one run has the motors energised or believes so, and it is the active one |
| `Controller.NextRunBesideHotMotors` | robot_server.py:174-186 | without that promise a controller opens the next run after one that ended with its motors on |
| `Controller.OpenRefusedWhileLive` | robot_server.py:750-752 | in every reachable state a well-formed open is refused, changing nothing, exactly while any run ever opened has not ended |
| `Controller.CrashBlocksForever` | robot_server.py:750-752 | after any later events the crashed run is still the active one, no run has been opened since, and every well-formed open is refused as RUN_STATE_CONFLICT and changes nothing |
| `Controller.ControllerCanBlock` | robot_server.py:728-768 | with a backend whose close raises, a controller reaches such a state with its first run |
| `Controller.ProgramController.OpenRun` | robot_server.py:728-768 | accepts exactly well-formed requests on an idle controller; the new run is fresh and satisfies the invariant |
| `Controller.ProgramController.EmergencyStop` | robot_server.py:776-780 | stops the active run, if there is one |
| `Client.SplitPlanIsGood` | robot_client.py:374-377 | every validated program, split and paced within the command line limits, meets the hypotheses of the streaming theorem on a server with the shipped buffer sizes |
| `Client.EndsIncrease` | robot_client.py:146-147 | the chunks of a program with increasing times end at increasing times |
| `Client.NextKeeps` | robot_client.py:156-234 | sending, receiving in any order, giving up, and any step of the server keep the client behind the server: its cursor never exceeds the server's, its acknowledged chunks are stored |
| `Client.StreamingNeverBlocked` | robot_client.py:156-234 | for every program and schedule, a chunk sent after start never meets the arming window nor QUEUE_FULL, and the streaming start is never refused as NOT_READY |
| `Client.SendsExactly` | robot_client.py:156-234 | the client sends exactly the next chunk, one at a time: while prebuffering is short of its target, or later when the chunk ends within the target of the reported cursor |
| `Client.StartsExactly` | robot_client.py:209-234 | the client starts exactly once prebuffering is done and no receipt is outstanding |
| `Client.ReceiptMovesOn` | robot_client.py:156-168 | a receipt moves the client on by one chunk and to the reported cursor; prebuffering is done exactly when it reaches the target or the end of the program |
| `Client.RefusalEnds` | robot_client.py:106-134 | a refused chunk, and nothing else that is heard, makes the client give up |
| `Client.AbortedIsSilent` | robot_client.py:106-134 | once it has given up the client sends nothing more, whatever still arrives |
| `Client.PrebufferQueueFullIff` | robot_client.py:209-223 | before start the promise does not hold: an otherwise admissible prebuffer chunk is refused as QUEUE_FULL exactly when it ends beyond the horizon |
| `Client.PrebufferCanOverflow` | robot_client.py:209-223 | with the default policy, one chunk of two points at rest 40 s apart is sent first and refused as QUEUE_FULL |
| `Lease.AlwaysExact` | remote_robot/lease.py:129-197 | after any sequence of acquire and release calls the owner map is exactly the union of the live grants' targets |
| `Lease.GrantsAreDisjoint` | remote_robot/lease.py:151-180 | two live grants never share a target |
| `Lease.OwnersAreDetermined` | remote_robot/lease.py:151-197 | the live grants alone determine the owner map |
| `Lease.ReleaseIsPrecise` | remote_robot/lease.py:182-197 | a release removes precisely its own targets and leaves what the other grants alone give |
| `Lease.RefusedAcquireIsHarmless` | remote_robot/lease.py:151-167 | a refused acquire changes nothing; it conflicts exactly when a requested target is held by another run, and reports every such target |
| `Lease.AcquireExactly` | remote_robot/lease.py:129-180 | what acquire returns, by the live grants alone: the same request again gets its original grant, another request of the same run is a mismatch, and a new run gets a grant exactly when no live grant shares a target |
| `Lease.GrantLasts` | remote_robot/lease.py:129-197 | a grant lasts, with its request and its time, through any calls but its own release |
| `Lease.CanonicalExactly` | remote_robot/lease.py:20-41 | a key is canonical exactly when it is not empty, str.strip leaves it as it is, and it has at most 512 characters and no control character |
| `Lease.AcquireThenRelease` | remote_robot/lease.py:129-197 | acquiring and releasing restores the earlier state |
| `Lease.LeavesNoTrace` | remote_robot/lease.py:129-197 | acquire, then any calls of other runs that the lease does not block, then release, equals never having acquired |
| `Lease.LeaseManager.CollectConflicts` | remote_robot/lease.py:160-167 | the loop collects exactly the requested targets owned by other runs |
| `Lease.LeaseManager.AcquireLease` | remote_robot/lease.py:129-180 | grants, repeats, mismatches and conflicts as specified, keeping the map exact |
| `Lease.LeaseManager.ReleaseLease` | remote_robot/lease.py:182-197 | releases as specified, keeping the map exact |
| `Journal.BigEndianRoundTrip` | remote_robot/journal.py:278-313 | the four-byte length prefix reads back as written |
| `Journal.DecodeWhole` | remote_robot/journal.py:278-313 | a frame followed by anything decodes to its value and leaves the rest |
| `Journal.DecodeCut` | remote_robot/journal.py:285-313 | a frame cut anywhere inside is reported as corrupt |
| `Journal.BigEndianBack` | remote_robot/journal.py:278-313 | four bytes are the length prefix of the number they read as |
| `Journal.DecodeOnly` | remote_robot/journal.py:285-313 | bytes decode to a value and a rest only if they are that value's frame, checksum and canonical payload included, followed by that rest |
| `Journal.Numbered` | remote_robot/journal.py:203-223 | every run's history is numbered 1..n |
| `Journal.LoadCut` | remote_robot/journal.py:316-390 | loading any number of bytes stops at a record boundary or fails |
| `Journal.RecoveryIsExact` | remote_robot/journal.py:347-390 | loading a file written by any interleaving of appends returns exactly the per-run histories |
| `Journal.LoadExactly` | remote_robot/journal.py:316-390 | a file loads as certain histories exactly when it is, byte for byte, the file that appending some log of these histories writes; any other file is refused |
| `Journal.LoadedIsProper` | remote_robot/journal.py:316-390 | whatever a file loads as, every run in it has a proper id and at least one event, numbered from one on, with its own run id, a time that is not negative and plain data |
| `Journal.TruncationIsDetected` | remote_robot/journal.py:374-390 | loading a byte prefix succeeds exactly at record boundaries, and then returns exactly that prefix of the record history |
| `JournalStore.FileIsMemory` | remote_robot/journal.py:203-241 | after any calls a restart reads back the histories in memory; the two maps are equal exactly when no run in memory is without events |
| `JournalStore.OversizedEventLeavesEmptyEntry` | remote_robot/journal.py:203-223 | a first event too large to frame leaves an empty entry in memory and nothing in the file |
| `JournalStore.EmptyEntryExactly` | remote_robot/journal.py:203-223 | a call creates an entry without events exactly when it appends plain data that cannot be framed, under a proper id with no entry and no recovered history, to an open journal |
| `JournalStore.RecoveredRunsAreFrozen` | remote_robot/journal.py:203-223 | over any appends, restarts and closings a run's events are only extended, and never change once recovered |
| `JournalStore.RestartNeverResumes` | remote_robot/journal.py:203-223 | after a restart no run with a history accepts an event |
| `JournalStore.ReplayIsSuffix` | remote_robot/journal.py:228-241 | replaying after sequence number n yields precisely the events n+1, n+2, … |
| `JournalStore.AppendExactly` | remote_robot/journal.py:203-226 | an append succeeds exactly for a proper id, plain data, an open journal, a run not recovered and a record that fits a frame; it then adds one event, numbered next, to that run alone and its frame to the file, and otherwise nothing |
| `JournalStore.AppendRefused` | remote_robot/journal.py:203-226 | why an append is refused, in order: the run id, the event, a closed journal, a run from before the last restart, a record that fits no frame |
| `JournalStore.ReopenExactly` | remote_robot/journal.py:347-390 | a restart leaves the file alone, reads its histories back and makes exactly its runs read-only |
| `JournalStore.LoadFile` | remote_robot/journal.py:374-390 | the loading loop with its table of expected numbers computes the load, which by Journal.LoadExactly accepts nothing but a written file |
| `JournalStore.FileRunJournal.Create` | remote_robot/journal.py:350-372 | a new journal holds only the header |
| `JournalStore.FileRunJournal.Append` | remote_robot/journal.py:203-226 | appends as specified, keeping file and memory in step |
| `JournalStore.FileRunJournal.ReplayAfter` | remote_robot/journal.py:228-241 | returns precisely the later events |
| `RolePath.SplitJoin` | remote_robot/registry.py:460-462 | joining dot-free segments and splitting again gives them back |
| `RolePath.JoinSplit` | remote_robot/registry.py:460-462 | splitting a path and joining it again gives the path back, and no segment holds a dot |
| `Registry.RankedHasNoCycle` | remote_robot/registry.py:506-534 | a graph with a rank falling along every edge has no cycle |
| `Registry.GraphCheck.Visit` | remote_robot/registry.py:518-531 | the depth-first visit terminates; it reports a real cycle or finishes everything below the node with ranks |
| `Registry.CheckReferences` | remote_robot/registry.py:507-513 | finds a dangling reference exactly when there is one |
| `Registry.ValidateGraph` | remote_robot/registry.py:506-534 | accepts exactly the graphs without dangling references and without cycles; a rejection exhibits one; acceptance comes with a rank for all later walks |
| `Walkers.ResolveGroup` | remote_robot/registry.py:457-494 | the resolver loop terminates on every valid registry and computes the resolution of the path |
| `Walkers.LeafResolves` | remote_robot/registry.py:536-558 | every enumerated leaf is what its path resolves to, and is marked as aliased exactly when the path crosses an alias |
| `Walkers.EnumerationAgrees` | remote_robot/registry.py:536-558 | the leaf enumeration lists exactly the paths the resolver accepts, under the same leaf |
| `Aliases.ValidateCompositeAliases` | remote_robot/registry.py:560-575 | accepts exactly the composites in which every leaf met more than once has exactly one unaliased entry |
| `Aliases.OnePrimaryPath` | remote_robot/registry.py:560-575 | in an accepted composite a leaf with two role paths has exactly one path that crosses no alias |
| `Manifests.Build` | remote_robot/registry.py:611-667 | a manifest carries its node's id and kind; building terminates on every valid registry |
| `Manifests.RemoteResolveGroup` | examples/client/discover_and_compile.py:46-93 | the client's loop over a downloaded manifest computes the client walk |
| `Manifests.CollectRoleBranchLocks` | remote_robot/orchestrator.py:275-306 | the orchestrator's loop succeeds exactly when the lock walk does, and adds exactly its locks to the given sets |
| `Manifests.ClientAgrees` | examples/client/discover_and_compile.py:46-93 | the client's walk over the built manifest is the registry's resolution, for every path |
| `Manifests.LockWalkAgrees` | remote_robot/orchestrator.py:275-306 | the lock walk succeeds exactly for the physical node the path leads to, and always collects that node's resources and domains |
| `Manifests.LockWalkIsExact` | remote_robot/orchestrator.py:275-306 | the lock walk collects exactly what the nodes of the branch declare, composites included, each resource as a resource and each safety domain as a safety domain |
| `Manifests.ManifestMirrors` | remote_robot/registry.py:595-667 | whatever roles one follows, registry and manifest end or fail together, and at the end the manifest is that of the node reached |
| `Manifests.FourWalksAgree` | remote_robot/registry.py:457-494 | for every valid registry, root and path, resolver, enumeration and client walk agree on the leaf or all fail; the lock walk succeeds exactly for the physical node the path leads to, which is the leaf's whenever the path resolves |
| `Manifests.ResolveIff` | remote_robot/registry.py:457-494 | a path resolves exactly when it leads to a physical node and its last segment names one of that node's groups |
| `Manifests.LockWalkIsLaxer` | remote_robot/orchestrator.py:286-306 | the lock walk accepts a path the resolver refuses exactly when the path leads to the expected physical node and its last segment is none of that node's groups |
| `Manifests.LockWalkAcceptsUnknownGroup` | remote_robot/orchestrator.py:289-294 | such paths exist: one physical root with group g, and the paths x and the empty one |
| `Manifests.PrintedPathResolves` | remote_robot/registry.py:536-558 | the dotted path printed for a leaf resolves back to it |
| `Manifests.DescendantsAreLeafNodes` | remote_robot/registry.py:669-681 | the physical descendants of a node are exactly the physical nodes of its leaf paths |
| `Compiler.SampleTimesIncrease` | remote_robot/program.py:507-512 | sample times of an accepted track increase strictly between any two samples |
| `Compiler.RateFault` | remote_robot/program.py:576-601 | the axis scan passes exactly when every axis respects its declared rates (1.875 and 5.773503) |
| `Compiler.ValidateSegmentRates` | remote_robot/program.py:576-601 | the loop returns the verdict of the axis scan |
| `Compiler.ReadValues` | remote_robot/program.py:513-532 | raw values are read exactly when there is one finite number per axis and no boolean |
| `Compiler.ReadSampleIff` | remote_robot/program.py:494-573 | a sample is accepted after a given predecessor exactly when it is well formed and its time, limits, normalised range, zero start and rates are right |
| `Compiler.ReadSamplesIff` | remote_robot/program.py:483-573 | a sample list is accepted exactly when it denotes a dense, ordered, limited, rate-checked trajectory, which is then the result |
| `Compiler.CompileDenseSamples` | remote_robot/program.py:483-573 | the loop with its previous sample computes the specification, errors included |
| `Compiler.CompileSequenceIff` | remote_robot/program.py:357-414 | a sequence compiles to a track exactly when it denotes it and the track commands the group its path resolves to in a supported schema |
| `Compiler.CompileTracksIff` | remote_robot/program.py:305-339 | a phase's sequences compile exactly when each does and no two command the same resolved group |
| `Compiler.CompileSequences` | remote_robot/program.py:305-339 | the loop with its set of targets computes the specification, and the longest duration |
| `Compiler.Longest` | remote_robot/program.py:305-328 | the phase duration bounds every track and is attained |
| `Compiler.CompilePhaseIff` | remote_robot/program.py:263-355 | a phase compiles exactly when it denotes the phase (default completion, no transitions) and the phase is good |
| `Compiler.CompilePhasesIff` | remote_robot/program.py:184-198 | phases compile exactly when each does and no phase id is repeated |
| `Compiler.CompileTemplate` | remote_robot/program.py:164-224 | the loop with its set of phase ids computes the specification, errors included |
| `Compiler.CompileIff` | remote_robot/program.py:164-224 | a template compiles to a program exactly when it denotes that program and the program is good for the registry: time order, dimension, limits, rates, targets and ids |
| `Refusals.SampleCode` | remote_robot/program.py:483-601 | a sample is refused with exactly the code of the first thing wrong with it: fields, time, dimension, numbers, start, limits, or the first axis whose rates fail |
| `Refusals.SequenceCode` | remote_robot/program.py:357-414 | a sequence is refused for its fields, path, target, schema, reference or samples, in this order |
| `Refusals.TracksCode` | remote_robot/program.py:305-339 | the first bad sequence decides the code, and a target taken before is a duplicate |
| `Refusals.PhaseCode` | remote_robot/program.py:263-355 | a phase is refused for its fields, id, completion, transitions or sequences, in this order |
| `Refusals.TemplateCode` | remote_robot/program.py:164-224 | a template is refused for its fields, format, version, root, phases or program id, in this order |
| `Compiler.ViewsAgree` | remote_robot/program.py:50-59 | two registries that agree on a root compile every template of that root to the same program |
| `Artifact.TemplateFromCompiled` | remote_robot/program.py:417-461 | the nested loops compute the template of a compiled body, or fail when a field is missing |
| `Artifact.RenderedHashes` | remote_robot/program.py:666-688 | every rendered program passes the outline, phase and sequence digest checks |
| `ArtifactFacts.HeaderSays` | remote_robot/program.py:197-224 | the header of a body names the program, its server, its root, the manifest and the outline by its digest |
| `ArtifactFacts.PhaseSays` | remote_robot/program.py:321-355 | a phase and its outline entry say the same: id, duration, payload digest; and the duration is the longest of the tracks' |
| `ArtifactFacts.SequenceSays` | remote_robot/program.py:380-414 | a sequence, its outline entry and its participant say the same as the track: where it goes, schema, reference, duration, digest |
| `ArtifactFacts.SampleSays` | remote_robot/program.py:483-573 | the samples and axes of a rendered sequence are those of the track, one by one |
| `ArtifactFacts.HashesExactly` | remote_robot/program.py:666-688 | the internal checks pass exactly when the outline, every phase, its outline entry and every sequence carry the digest of what they stand for |
| `ArtifactFacts.WrongDigestIsRefused` | remote_robot/program.py:233-261 | an artifact with a wrong outer digest is a HASH_MISMATCH, and nothing with a wrong inner digest is ever accepted |
| `ArtifactFacts.ForeignProgramIsRefused` | remote_robot/program.py:233-261 | a good program offered to another registry is refused by name when the server, the root or the manifest differs |
| `Artifact.RecompileIsIdentity` | remote_robot/program.py:164-224 | compilation is a fixed point: the template rebuilt from a compiled body compiles to the same program, hence the same body and digest |
| `Artifact.GoodProgramIsAccepted` | remote_robot/program.py:233-261 | every good program's artifact is accepted |
| `Artifact.AcceptedIsCompiled` | remote_robot/program.py:233-261 | whatever is accepted compares equal to, and has the digest of, a compiler output for this registry, with no assumption on the digest |
| `Artifact.ValidateIff` | remote_robot/program.py:233-261 | unless another compiler output has the same digest, validation accepts exactly the renderings of good programs, although Python compares 1, 1.0 and true as equal |
| `Artifact.CollisionsAdmitMore` | remote_robot/program.py:256-261 | the hypothesis is needed: if all digests are equal, every good program is also accepted with its version written 2.0, which no compiler output is |
| `Artifact.ReadingIsCanonical` | remote_robot/program.py:125-151 | accepted bytes are the canonical bytes of what was read |
| `ArtifactFacts.ReadingIsSound` | remote_robot/program.py:125-151 | accepted bytes were one canonical envelope of the supported format and version, with every digest right |
| `ArtifactFacts.ReadingCode` | remote_robot/program.py:125-151 | bytes are refused for not being CBOR, not being canonical, their envelope, the types in it, their format or version, or a digest, in this order |
| `Artifact.WriteThenRead` | remote_robot/program.py:97-98 | every compiled program survives to_bytes and from_bytes |
| `RegistryViews.DownloadedManifestCompilesAlike` | examples/client/discover_and_compile.py:19-93 | compiling against a downloaded manifest yields exactly the program the server would compile |
| `RegistryViews.ClientArtifactIsAccepted` | examples/client/discover_and_compile.py:19-93 | what a client compiles against a current manifest the server accepts |
| `RegistryViews.ClientKnowsOneRoot` | examples/client/discover_and_compile.py:37-48 | a client refuses every template for another root than the one whose manifest it holds, and resolves nothing in any other |
| `RegistryViews.AcceptedTrackIsSafe` | remote_robot/program.py:357-414 | every track of an accepted program commands a declared group of a physical node, in a schema it supports, with its axes, within the limits and the rates they declare |
| `RegistryViews.TrackLimits` | remote_robot/program.py:483-601 | for any view of a registry, value by value and step by step: position limits, normalised ranges, the zero start of relative tracks, 1.875 times the mean velocity and 5.773503 times the mean acceleration |
| `Requirements.LockRequirements` | remote_robot/orchestrator.py:236-273 | the nested loops compute the lease request of all sequences, or fail when one does not fit the manifest |
| `Requirements.GatherIsExact` | remote_robot/orchestrator.py:236-273 | the request exists exactly when every lock walk succeeds and then holds exactly the commanded leaves and the resources and domains met on the way |
| `Requirements.RequestIsExact` | remote_robot/orchestrator.py:236-306 | the lease request of an accepted program holds exactly the commanded leaves and what the nodes on the way to them declare, composites included |
| `Requirements.LeafKeysDiffer` | remote_robot/orchestrator.py:236-273 | two leaves never share a lease key, as no group id has a dot in it |
| `Requirements.PlannedPhase` | remote_robot/orchestrator.py:648-676 | a planned phase has the compiled phase's id, its workers with exactly the leaves their tracks command, and a duration that bounds every track and is reached |
| `Requirements.AcceptedProgramIsLocked` | remote_robot/orchestrator.py:236-306 | an accepted program always has a request; it names every commanded leaf and covers every participating physical node |
| `Requirements.WorkerPhasePlans` | remote_robot/orchestrator.py:648-676 | tracks are grouped by worker, each group in phase order |
| `Requirements.GroupingConserves` | remote_robot/orchestrator.py:657-661 | grouping loses, duplicates and misplaces no track |
| `Requirements.ExecutionIdsDiffer` | remote_robot/orchestrator.py:654-656 | two phases of a run never share an execution id |
| `Requirements.PlannedExecutionsDiffer` | remote_robot/orchestrator.py:648-676 | every planned program has distinct execution ids, as the evidence theorem assumes |
| `Requirements.ParticipantWorkerIds` | remote_robot/orchestrator.py:309-318 | the loops collect exactly the physical nodes of the program's sequences |
| `Requirements.ParticipantsAreTargets` | remote_robot/orchestrator.py:309-318 | these are exactly the workers that take part in the planned run |
| `Requirements.AcceptedProgramIsAdmissible` | remote_robot/orchestrator.py:204-234 | every program accepted against the registry satisfies what the fleet model assumes of an admitted one |
| `Requirements.DeclaredWorkerIsExclusive` | remote_robot/orchestrator.py:160-202 | over every history of programs accepted against one registry, a worker whose node declares a resource or safety domain is never involved in two live runs, even through different roots |
| `Worker.OneScriptPerStart` | remote_robot/worker.py:159-223 | for every schedule, each accepted start emits at most one phase_started and then at most one phase_completed, both under the identity current at the start |
| `Worker.SilentUntilRestarted` | remote_robot/worker.py:232-245 | after a stop has returned no phase event is emitted until the next start |
| `Punctual.NeverEarly` | remote_robot/worker.py:184-205 | over every schedule, each phase_started was emitted by the wake-up of a task at the reported time, no sooner than the deadline of the start call that created it: the reported start skew is never negative |
| `Punctual.NeverShort` | remote_robot/worker.py:184-223 | over every schedule, each phase_completed ends a phase that the same task began at the reported start time, no sooner than the duration of the plan it was begun with |
| `Punctual.CalmStartsOnTime` | remote_robot/worker.py:159-205 | when no start call is made while a stop or a close still waits, every phase is begun by the phase task of the last accepted start call, no sooner than that call's deadline |
| `Punctual.CalmLastsLongEnough` | remote_robot/worker.py:184-223 | in such a schedule every phase reported as completed was begun under the identity and the plan it is completed under, and lasted at least that plan's duration |
| `Punctual.CurrentIsLive` | remote_robot/worker.py:214-230 | in every schedule a phase task that the worker refers to is alive: one that is over is forgotten |
| `Punctual.PlansAreProper` | remote_robot/worker.py:129-157 | in every schedule a plan that the worker holds names its run, phase and execution and has no negative duration |
| `Punctual.OnlyOrphansStartEarly` | remote_robot/worker.py:225-245 | in any schedule, a phase begun before the deadline of the last accepted start call is begun by an older task |
| `Punctual.OverlappingStopsStartEarly` | remote_robot/worker.py:225-245 | such tasks exist: of two overlapping stops the first returns late and leaves a task of the second start alive, which begins the third phase at 10 instead of 1000 |
| `Worker.PreparedWithoutPlan` | remote_robot/worker.py:137-150 | a rejected plan can leave a worker prepared without a plan; a start is then acknowledged under no identity |
| `Worker.PlanLostExactly` | remote_robot/worker.py:129-157 | a call makes a worker prepared without a plan exactly when it was prepared and is offered an invalid plan |
| `Worker.ValidPlansAreKept` | remote_robot/worker.py:129-157 | if only valid plans are offered, prepared implies a plan in every run |
| `Worker.WaitFindsFirst` | remote_robot/orchestrator.py:558-585 | whatever stale events come first, the wait is decided by the first decisive event and keeps everything behind it |
| `Worker.BothWaitsSucceed` | remote_robot/orchestrator.py:547-585 | waiting for the start and then for the completion finds both |
| `Worker.WaitOne` | remote_robot/orchestrator.py:558-585 | the waiting loop computes the wait specification |
| `Worker.InMemoryWorker.PreparePhase` | remote_robot/worker.py:129-157 | prepares as specified, including the cleared plan of a rejected one |
| `Worker.InMemoryWorker.StartPhase` | remote_robot/worker.py:159-182 | starts as specified and creates one task |
| `Worker.InMemoryWorker.WakeTask` | remote_robot/worker.py:184-223 | one wake-up of a phase task, including the full queue; the time it reports is its own, as Answers.ReportedStartIsWake states over every fleet history |
| `Worker.InMemoryWorker.CancelPhaseTask` | remote_robot/worker.py:225-230 | the current task runs no further |
| `Worker.InMemoryWorker.SettleStop` | remote_robot/worker.py:232-245 | the stop settles in the stopped state |
| `Worker.InMemoryWorker.SettleClose` | remote_robot/worker.py:269-273 | after its await a close sets the closed state, whatever happened meanwhile |
| `Worker.InMemoryWorker.PrepareDisabled` | remote_robot/worker.py:119-127 | disables and clears the plan unless a phase is scheduled or running |
| `Orchestrator.ObservedStartSkew` | remote_robot/orchestrator.py:617-632 | the reported skew is the largest difference between any two start times |
| `Orchestrator.JournalIsAWord` | remote_robot/orchestrator.py:320-487 | whatever workers, timeouts and the journal do, a run's journal is a prefix of opened, disabled, (prepared scheduled started completed)*, or has ended in one of its endings |
| `Orchestrator.HealthyRun` | remote_robot/orchestrator.py:320-487 | with a working journal a finished run ends in exactly one run.completed after all phases or one run.faulted after a part of the word; which of the two is told by Replies.EntriesAreVouched |
| `Orchestrator.BarriersHold` | remote_robot/orchestrator.py:503-615 | a run calls start on no worker before all workers of the phase are prepared, and prepares none for the next phase before all of this one completed; what a start call starts is up to the plan the worker holds |
| `Replies.EntriesAreVouched` | remote_robot/orchestrator.py:320-487 | over every history: workers.disabled, phase.prepared and phase.scheduled are written only after every worker concerned has answered well, phase.started and phase.completed only after every worker has reported, run.completed only after every participant was stopped and answered well, with nothing done after the first stop |
| `Turns.FailsExactly` | remote_robot/orchestrator.py:320-487 | a run turns to the coordinated stop exactly on an interruption, an event of failure, a bad reply or a failed append once all replies are in, start times that are bad or too far apart, or a next phase without workers; then everyone is to be stopped |
| `Turns.FlaggedExactly` | remote_robot/orchestrator.py:489-545 | a bad reply of a worker that was asked, and nothing else, spoils a stage, and stays until the stage is over |
| `Turns.WritesExactly` | remote_robot/orchestrator.py:320-487 | the journal grows exactly by the entry of a settled place that was not spoilt |
| `Turns.EndsExactly` | remote_robot/orchestrator.py:320-487 | a run ends exactly when it could not be opened, has completed, or has settled its coordinated stop and tried run.faulted; its lease is released exactly after that |
| `Turns.CanAlwaysRelease` | remote_robot/orchestrator.py:160-202 | from wherever a run is, even when the journal takes nothing any more, there is a way on which it stops every worker it must and releases its lease |
| `GoodRuns.GoodRunCompletes` | remote_robot/orchestrator.py:320-487 | every program with at least one phase has a history in which its run goes through all its phases in order, stops its workers, completes and releases its lease |
| `Orchestrator.CompletedPhaseSkew` | remote_robot/orchestrator.py:617-646 | a completed phase has a start skew, over the times all its workers reported, within the root's limit; Answers.CompletedPhaseStartedTogether says the same of the wake-ups themselves |
| `Fleet.NextKeeps` | remote_robot/orchestrator.py:160-202 | every event of any run or worker keeps the fleet invariant: exact leases, live runs hold theirs, active workers belong to a driving run |
| `Admissions.AdmittedExactly` | remote_robot/orchestrator.py:160-202 | a submission begins a run, holding exactly what it asked for, exactly when its id has no history and no active run, the program is admissible, its workers are known and no live grant shares a target; otherwise nothing changes |
| `Admissions.IdsAreUsedOnce` | remote_robot/orchestrator.py:175-180 | over every history a run id with a journal history is never used for another run: the program stays, and its journal is only added to |
| `Fleet.DrivingRunHoldsLeaves` | remote_robot/orchestrator.py:160-202 | whenever a worker is scheduled or running, the run named in its plan holds the lease on every leaf the plan commands |
| `Fleet.OneRunPerWorker` | remote_robot/orchestrator.py:160-202 | if every submitted program involving a worker asks for a common resource or domain, no two live runs involve it |
| `Fleet.EveryRunFollowsProtocol` | remote_robot/orchestrator.py:320-487 | whatever other runs do, each run's journal is a word of the protocol, its own calls respect the barriers, its entries are vouched for by the answers it got, and its completed phases respect the skew limit |
| `Deliveries.StepIsLater` | remote_robot/worker.py:105-110 | the queue always holds exactly the latest deliveries: every call appends to or takes from their sequence in order |
| `Deliveries.StatusExactly` | remote_robot/worker.py:119-273 | a worker comes into each status exactly by its own call or wake-up, and only from where that is allowed |
| `Deliveries.EmissionExactly` | remote_robot/worker.py:105-245 | what a call or wake-up emits: at most one event, exactly when it takes effect, of the right kind, identity and time, delivered exactly when the queue has room |
| `Deliveries.OnceKeeps` | remote_robot/worker.py:129-182 | a worker that is never prepared twice under one identity is never started twice under it |
| `Deliveries.ScriptIsWhole` | remote_robot/worker.py:184-223 | a delivered start and a delivered completion under an identity started once are all the phase events of that identity |
| `Evidence.NextOk` | remote_robot/orchestrator.py:160-202 | every event of the fleet keeps the tie between runs and workers: what a run noted was taken from the worker's queue in order, and a worker knows only identities of phases it was prepared for |
| `Evidence.CompletedPhaseHappened` | remote_robot/orchestrator.py:320-487 | when a run's journal says a phase completed, each of its workers emitted under the run's identity for that phase exactly one phase_started and then one phase_completed, in one start, both delivered, whatever else went on |
| `Answers.JournalIsTruthful` | remote_robot/orchestrator.py:320-487 | in every fleet history an entry is written only when the workers have done what it says: each participant delivered its disabled answer; each worker of the phase delivered its acceptance of that very phase, or began it; each participant delivered that it stopped |
| `Answers.RepliesAreFair` | remote_robot/worker.py:119-182 | a call fails exactly when the worker may not take it or its queue is full, and a start counts exactly when the worker was prepared with a plan of this run and this phase |
| `Exchanges.PlanIsOffered` | remote_robot/orchestrator.py:503-517 | a worker is offered the plan of this very run and phase, for as long as the phase is to last, and if it may take it this is the plan it then holds |
| `Exchanges.EventsAreFair` | remote_robot/orchestrator.py:558-615 | a waiting run takes one event at a time: a closed worker and a decisive event of the wrong kind are failures, the expected one is noted with its own start time, all else is dropped |
| `Exchanges.StopsAreFair` | remote_robot/orchestrator.py:678-700 | a stop cancels the worker's current task; if the worker is closed the stop has failed at once |
| `Exchanges.FleetIsNeverEarly` | remote_robot/worker.py:184-205 | in every history of a fleet of new workers a reported phase start is never before the deadline of a start call accepted by that worker |
| `Answers.ReportedStartIsWake` | remote_robot/worker.py:184-223 | in every fleet history a start time that a run has noted is the clock time of a wake-up that began that phase on that worker under the run's identity |
| `Answers.CompletedPhaseStartedTogether` | remote_robot/orchestrator.py:617-646 | each worker of a completed phase was woken into it under the run's identity, and no two of those wake-ups are further apart than the skew limit |
| `Requirements.DeclaredSkewHolds` | remote_robot/orchestrator.py:634-646 | over every history of programs accepted against one registry, the wake-ups of a completed phase are within the start skew that the composite root declares |
| `SharedWorkers.ForeignStartExactly` | remote_robot/worker.py:159-182 | a start call begins another run's phase exactly when the caller is scheduling this worker and the worker is prepared with that other run's plan |
| `SharedWorkers.BarrierFailsUnguarded` | remote_robot/orchestrator.py:519-545 | two runs with leases on different leaves of one worker: a start call of the one sets the worker running under the identity of the other, which still waits to prepare its second worker |
| `SharedWorkers.GuardedStart` | remote_robot/orchestrator.py:519-545 | on a worker guarded by a common resource or domain, a start call begins the caller's own current phase, with all its workers prepared |
| `SharedWorkers.GuardedBarrierHolds` | remote_robot/orchestrator.py:503-545 | over every history, whatever a guarded worker ever began under a run's identity for a phase, that run started, after every worker of the phase was prepared |
| `Requirements.DeclaredBarrierHolds` | remote_robot/orchestrator.py:503-545 | the same for every worker whose node declares a resource or safety domain, over programs accepted against one registry |
| `Undeclared.UndeclaredWorkerIsShared` | remote_robot/lease.py:129-180 | the declaration is needed: two programs accepted against a registry whose one node declares nothing are live at once on its worker |

## Left out

- WebSocket, asyncio and subprocess plumbing, IPC framing and `worker_process.py`: input and output around libraries; the journal covers the same framing argument with more state.
- The asynchronous methods of `RunOrchestrator` are modelled as a transition system rather than as a class, because their interleaving is the point; the loops that only compute (locks, plans, skew, waiting) are methods.
- The async loops of `robot_client.py` are modelled as guarded steps for the same reason; the model does not capture the printed output or the heartbeat interval.
- CBOR bytes, SHA-256, JSON and TOML parsing: parameters, as described above. Byte strings, dates and non-text map keys in decoded values, and the sign of zero, are not modelled.
- Motor bus code, calibration files and `SO101Backend`: the backend is a source of results for connect, read, send and close.
- The hold pose sent while closing is the measured pose, which the code does not check against the limits; it is not among the targets of the limit theorem.
- Timeouts as durations and floating-point rounding: times are integers of a non-decreasing clock, coordinates are reals. That a good run completes is proved for given instants of its ticks; that an operating system delivers such instants is not.
- A phase task that is due may wake at any later time; the skew theorems hold for every such schedule. A phase without duration takes two wake-ups in the model and one in the code, so the model allows more interleavings.
- Worker events carry the fields that the orchestrator reads; the requested start, the skew and the completion time they also report are stated about the wake-ups instead.
- A second cancellation arriving during a coordinated stop, and failed or partial disk writes.
- Journal events containing tuples, which CBOR returns as arrays, are outside the decode-after-encode hypothesis; the secret-key scan of events is one opaque predicate.
- Identity scopes, authorization, credentials, dashboard, `operations.py`, command line and migration helper: thin layers that would add only easy members.
- Manifest caching, manifest hashes of children, watchdog assurances and telemetry schemas: copied data that no property here depends on.
- Identifiers: letters beyond ASCII are taken as letters wherever `str.isalpha` would ask the Unicode tables.
- The policy's minimum segment is at least one microsecond and its horizon is not negative; both hold for the shipped policy and are built into the types.
- Non-empty `transitions` and completions other than the default are rejected, as the compiler does; their reserved format is not modelled.
- Error messages and details: results carry codes only; whatever a registry or a client's manifest view raises is one code for an unknown root and one, GroupNotFound, for a path.
