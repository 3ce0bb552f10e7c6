# Cloud Glider: a verified model of its lifecycle protocols

Cloud Glider moves a small EC2 workload from one instance to its successors. This
project models the protocols that make that safe, and proves properties of them over
every run: the independent binary and unary families, the single-successor chain, the
cycle lifecycle with its operator commands and cleanup, the offline fan-out trial, the
control monitor, and the diagnostic exporter with its receipt check.

A protocol with several writers is a state machine. Each conditional write, each
transaction and each answer of EC2 is one atomic step, and any interleaving of steps is
a run. Whatever the source reads first and its transaction does not check again is left
to the environment, so a snapshot may be stale, a response lost, a process crashed, a
request throttled and a switch flipped at any point. Code that changes fields and loops
is a class whose methods are proved equal to the specification functions the lemmas are
about. `dafny verify dfyconfig.toml` covers the whole project.

| file | what it models |
|---|---|
| `Paths`, `Lineage`, `Records`, `Wrappers` | lineage paths and their orders, instances named by their launch requests, table items and the containment condition |
| `Fanout`, `FanoutSafety`, `FanoutRuns`, `FanoutEvidence`, `FanoutTrial` | the offline fan-out trial for any depth and fan-out: specification, invariant, theorems, the warrants of each stage change, and the imperative class |
| `Lifecycle`, `Commands`, `BootstrapRuns` | the lifecycle record and every conditional write to it; operator commands; bootstrap and cycle runs |
| `Family`, `FamilyGrowth`, `FamilyLaunch`, `FamilySafety`, `FamilySingle`, `FamilyCleanup` | the independent EC2 family with its cleanup controller as one state machine, and its safety theorems |
| `FamilyFences`, `FamilyTransactions`, `FamilyDeliveries`, `FamilyReset` | what a hold, switch, stop or closed gate stops; when exactly each transaction of an agent, and each step of a cleanup delivery, happens; that a cleanup can always finish |
| `FamilyGateway` | the launching half of the gateway as a class that takes protocol steps while everybody else takes theirs |
| `FamilyProgress`, `FamilyCycle`, `FamilyProgressProof`, `FamilyProgressRuns`, `FamilyProgressTime`, `FamilyDaemon` | the agent's cycle in a fault-free family, what exactly one cycle does, progress under every timely schedule, the times a schedule must keep, and the imperative daemon |
| `Ec2Chain`, `Ec2ChainTransactions`, `Ec2ChainSafety`, `Ec2Daemon` | the single-successor chain, when exactly its transactions commit, its safety, and the daemon's cycle as a class |
| `ControlMonitor`, `HeartbeatGate`, `AlarmCleanup`, `TimingExport`, `TimingValidate` | the stop latch, the heartbeat gate, alarm deletion, the exporter and its receipt check |

How the safety of a reset is put together: a launch intent is written before any
RunInstances call and only while the cycle is open (`FamilyLaunch`); a submission is
settled only with an instance already on record; cleanup reads the whole table once no
submission is unsettled, after which nothing can be launched any more, so its inventory
misses no instance; it deletes rows and opens the next cycle only after it has seen each
of them terminated (`FamilyCleanup`). How single mode keeps three generations: a node
extends the chain only after its grandparent's termination, a retiring node has only
terminated ancestors (`FamilySafety`), and a path is launched at most once
(`FamilySingle`).

Where code and comment differ the model follows the code. The trial's comment at
`scripts/binary_fanout_trial.py:164` says that confirming an accepted termination is
permitted after a stop. The code allows it for the root only: every other node is
reached through a parent that is still LIVE, and that parent's own control check blocks
first. `FanoutRuns.StoppedStep` states exactly when a step can change anything while
stopped.

## Model

| member | source | states |
|---|---|---|
| Paths.PostOrderTotal | scripts/binary_fanout_trial.py:188-190 | the recursion's completion order is a total order: of two different paths exactly one comes first, descendants before ancestors and left subtrees before right ones |
| Paths.LevelOrderIsExact | scripts/binary_fanout_trial.py:230 | sorting by length and then path lists every path of the tree, nothing else, in strictly increasing order |
| Paths.TreeSizeClosedForm | scripts/binary_fanout_trial.py:65-66 | the size of a tree of any depth and fan-out, (fan - 1) N = fan^(depth + 1) - 1, seven for the program's constants |
| FanoutSafety.MoveKeepsInv | scripts/binary_fanout_trial.py:135-206 | a stage move of one node, in the context such a move demands, keeps growth before teardown, post-order, and one submission per node |
| FanoutSafety.AdvanceTeardown | scripts/binary_fanout_trial.py:184-206 | with the whole tree ready, advancing a node either leaves its subtree settled or moves exactly one node, whose earlier nodes in post-order have all terminated |
| FanoutSafety.StepMoves | scripts/binary_fanout_trial.py:221-242 | every step, under any faults and controls, changes no stage or makes exactly one lawful move |
| FanoutRuns.TeardownInPostOrder | scripts/binary_fanout_trial.py:171-206 | in every run no node leaves LIVE before the full tree exists and is ready, and a node that left it has everything before it in post-order terminated |
| FanoutRuns.OneTeardownAtATime | scripts/binary_fanout_trial.py:192-206 | in every run at most one node is COMPLETE or RETIRING |
| FanoutRuns.SubmittedAtMostOnce | scripts/binary_fanout_trial.py:173-183 | over steps, faults, stops and reconciliations each path has at most one SUBMIT event, and it has been left RESERVED exactly when there is one |
| FanoutRuns.StoppedStep | scripts/binary_fanout_trial.py:125-171 | while stopped a step changes a phase if and only if the root is RETIRING, fenced and without a termination fault, and then it only terminates the root |
| FanoutRuns.AtMostSevenPerNode | scripts/binary_fanout_trial.py:135-206 | under any faults at most seven operations per node ever move a stage |
| FanoutRuns.FaultFreeRun | scripts/binary_fanout_trial.py:252-256 | a fault-free run advances exactly 6N times and from then on every step reports that nothing is left |
| FanoutRuns.FaultFreeEnd | scripts/binary_fanout_trial.py:121-133 | it ends with exactly the tree, every node completed and terminated, occupancy zero and peak occupancy N |
| FanoutEvidence.StepIsWarranted | scripts/binary_fanout_trial.py:135-242 | in every run, under any faults, controls, clocks and evidence, a step changes the stage of at most one node, and then the controls, the ancestors, the subtree and the evidence that stage demands were all there |
| FanoutTrial.BinaryTrial.AdvanceNode | scripts/binary_fanout_trial.py:135-206 | the in-place recursion has the effect and the outcome of the specification, for every state |
| FanoutTrial.BinaryTrial.SimulateObservations | scripts/binary_fanout_trial.py:75-89 | the observation loop rewrites exactly the evidence of live and complete nodes |
| FanoutTrial.BinaryTrial.CheckAncestors | scripts/binary_fanout_trial.py:244-250 | the loop over proper prefixes decides whether every ancestor is live, ready and freshly proven |
| FanoutTrial.BinaryTrial.ReconcileLaunch | scripts/binary_fanout_trial.py:208-219 | only an exact cycle, token and found instance turn SUBMITTING into LIVE; anything else changes nothing |
| FanoutTrial.BinaryTrial.TakeStep | scripts/binary_fanout_trial.py:221-242 | the expansion loop with its early exits is the specified step |
| FanoutTrial.BinaryTrial.RunToEnd | scripts/binary_fanout_trial.py:252-256 | the bounded driver reports on a fresh fault-free trial exactly when the bound exceeds 6N, with every node terminated; for seven nodes the bound of 100 is never reached |
| Lifecycle.WriteKeepsRequest | bootstrap/handler.py:356-380 | every conditional write of the lifecycle record keeps a requested cleanup's gates closed, advances the status by at most one within a cycle, and opens a gate only while no cleanup is under way |
| Lifecycle.ScriptsAreExact | scripts/lifecycle.py:10-51 | what each operator script writes and exactly when its condition holds |
| Lifecycle.WritesAreExact | bootstrap/handler.py:356-381 | what the claim, the submission, the start of cleanup, its inventory and its attention write, and exactly when each condition holds |
| Lifecycle.PutsAreExact | bootstrap/handler.py:491-496 | a put over a record read before commits only if every attribute read is unchanged, and the reset then opens the next cycle READY with its gates closed |
| Commands.CommitIsAtomic | bootstrap/handler.py:738-763 | a committed consumption acts on the switches as they stand at the commit, clears all three, raises the sequence by one, leaves every setting alone, and is refused to a delivery for another sequence number |
| Commands.AcceptedPutIsLawful | bootstrap/handler.py:826-877 | for START, STOP and CLEANUP alike the record put keeps cycle and status, never withdraws a cleanup, and opens gates only when none is under way; what each command must put is stated by the next rows |
| Commands.PauseIsLawful | bootstrap/handler.py:936-938 | closing both gates after a failed START is such a put too |
| Commands.StartAccepted | bootstrap/handler.py:829-859 | a committed START found no hold and no cleanup, opens both gates of a READY cycle whose CURRENT has no owner and whose settings are approved (pinned with a valid envelope if it inherits), or propagation alone of a submitted one |
| Commands.StartIsObeyed | bootstrap/handler.py:829-859 | a START presented alone for the current sequence number is accepted exactly when no cleanup is under way, no hold stands and the cycle is READY with approved settings, their digest and an empty CURRENT, or submitted and in possession of CURRENT |
| Commands.StopAccepted | bootstrap/handler.py:861-864 | a committed STOP leaves propagation disabled and every other field of the record as read |
| Commands.CleanupAccepted | bootstrap/handler.py:865-871 | a committed CLEANUP leaves cleanup requested, both gates closed, the retry token cleared, cycle and status kept, and NEEDS_ATTENTION turned to QUIESCING |
| Commands.StopAndCleanupAreObeyed | bootstrap/handler.py:798-828 | a STOP or CLEANUP presented alone is accepted whatever the record says, if there is a record or a first one can be made |
| Commands.ObeysExactly | bootstrap/handler.py:777-859 | a delivery accepts a command if and only if one switch alone is presented to its own installation under the current sequence number, there is a record or a first one can be made, and a START is due |
| Commands.IgnoresExactly | bootstrap/handler.py:777-787 | it is passed over exactly for another sequence number or with no switch on and none malformed |
| Commands.AcceptedCommits | bootstrap/handler.py:872-877 | an accepted command commits exactly when CONTROL, CURRENT and the record are still as read and, for START, no hold stands |
| Commands.RejectionKeepsRecord | bootstrap/handler.py:795-799 | a rejected command leaves the lifecycle record alone |
| Commands.ConsumptionsAreNumbered | bootstrap/handler.py:777-877 | over flips, scripts, edits, feedback and stale or duplicate deliveries the committed consumptions are numbered 1, 2, 3, ... and each logged the switches it really found |
| Commands.SwitchStandsUntilConsumed | bootstrap/handler.py:738-752 | no feedback write and no edit ever clears a switch; only a consumption that saw it, or the console, does |
| Commands.StaleDeliveryIgnored | bootstrap/handler.py:780-781 | once the sequence has moved on, the old delivery changes nothing in any later state |
| BootstrapRuns.OneCreatePerCycle | bootstrap/handler.py:244-313 | at most one create_stack per cycle under duplicate, delayed or concurrent deliveries, and a requested cleanup always has both launch gates closed |
| BootstrapRuns.CreateInsideItsCycle | bootstrap/handler.py:293-296 | a create_stack call for a cycle happens in that cycle, under its provisioning lock and claim |
| BootstrapRuns.ClaimsExactly | bootstrap/handler.py:283-290 | the claim succeeds exactly for an enabled READY cycle with its settings' digest and no cleanup, and leaves it CREATING |
| BootstrapRuns.LocksExactly | bootstrap/handler.py:334-349 | the provisioning lock is taken, checked again under and given back under exactly these conditions |
| BootstrapRuns.FinishesExactly | bootstrap/handler.py:207-241 | SUBMITTED is recorded exactly while the cycle is being created, by the delivery that created its stack or by a later one that sees it |
| BootstrapRuns.NoCreateWhileShut | bootstrap/handler.py:122-148 | while a hold, a cleanup or the closed gate stands no delivery passes its last check, so no stack is created that had not passed it before |
| BootstrapRuns.BootstrapCompletes | bootstrap/handler.py:244-313 | an enabled READY cycle with nothing in the way is claimed, created exactly once, submitted, and its lock given back |
| BootstrapRuns.OperationSucceeds | bootstrap/handler.py:498-543 | each operation keeps the cycle or starts the next one READY with its gates closed; status only advances and a cleanup request is never withdrawn within a cycle |
| BootstrapRuns.CyclesOnlyAdvance | bootstrap/handler.py:507-511 | the cycle number never decreases |
| BootstrapRuns.GatesOpenOnlyForTheirCycle | scripts/lifecycle.py:10-51 | a gate is only opened by a put or a script for the cycle then current, so no START survives a reset |
| FamilyGrowth.StepGrows | daemon/cloud_glider/family_sdk.py:46-58 | no step of anybody takes back a termination, a claim, an owner, a retiring or leaf mark, a propagation receipt, settled evidence or a resource record, until cleanup deletes rows |
| FamilyFences.NothingPassesTheFence | daemon/cloud_glider/family_sdk.py:46-58 | over any run in which at every step a hold, a stop or cleanup switch, a closed propagation gate or the node's own STOP stands, whichever it is, the node does not become RETIRING, gets no owner and no propagation receipt, and clears no further termination |
| FamilyTransactions.RetiresExactly | daemon/cloud_glider/family_sdk.py:422-448 | the retirement transaction commits exactly when every fence is open, the node owns itself, its own parent has ended, and each child owns itself, is ready and at most 15 seconds old and has proved its own launches; it then only marks the node RETIRING |
| FamilyTransactions.ClearsExactly | daemon/cloud_glider/family_sdk.py:450-457 | the check made again before a termination passes under exactly the same conditions |
| FamilyTransactions.RetirementIsDue | daemon/cloud_glider/family_sdk.py:422-448 | no other step of anybody makes a node RETIRING |
| FamilyTransactions.AcceptsExactly | daemon/cloud_glider/family_sdk.py:269-283 | a child is accepted exactly when its readiness is at most 15 seconds old, neither end is stopped, every fence is open and nobody owns it yet |
| FamilyTransactions.ProvesExactly | daemon/cloud_glider/family_sdk.py:342-360 | a propagation receipt is written exactly when every child named is settled and recorded, by an owner under open fences, once |
| FamilyTransactions.IntendsExactly | daemon/cloud_glider/family_sdk.py:160-173 | a launch intent commits exactly for a running owner of a cycle under way whose generation may launch, at a child path without a submission |
| FamilyTransactions.RetriesExactly | daemon/cloud_glider/family_sdk.py:147-159 | a durable rejection is taken back exactly for such an owner, of its own token and with no instance named, and that thread may then submit |
| FamilyTransactions.FindsExactly | daemon/cloud_glider/family_sdk.py:140-146 | an unsettled submission's instance is found again exactly by its own token |
| FamilyTransactions.SettlesExactly | daemon/cloud_glider/family_sdk.py:206-222 | a submission is settled exactly by a thread whose resource record is written, with that instance and no other |
| FamilyTransactions.RejectsExactly | daemon/cloud_glider/family_sdk.py:177-197 | a rejection is recorded exactly by a throttled thread, for its own token and with no instance named; answered or not it is durable |
| FamilyTransactions.PublishesExactly | daemon/cloud_glider/family_sdk.py:224-237 | readiness is published exactly by a running claimed node of an open cycle without an error mark |
| FamilyLaunch.StepKeepsClosedInv | daemon/cloud_glider/family_sdk.py:35-44 | once cleanup of the cycle has been requested the launch fences can never hold again |
| FamilyLaunch.IntentIsNew | daemon/cloud_glider/family_sdk.py:167-173 | an intent that commits goes to a path that never had one |
| FamilyLaunch.RetryKeepsEdge | daemon/cloud_glider/family_sdk.py:147-158 | clearing a rejection receipt gives permission for one more request only when every request so far was throttled |
| FamilyLaunch.RecordThrottleKeepsEdge | daemon/cloud_glider/family_sdk.py:177-196 | the rejection receipt covers every request made, whether or not its write was answered |
| FamilyLaunch.SettleKeepsEdge | daemon/cloud_glider/family_sdk.py:206-222 | a submission is settled exactly when it names an existing instance of its own token that is already on record |
| FamilyLaunch.LaunchAtMostOnce | daemon/cloud_glider/family_sdk.py:137-204 | RunInstances calls for a path are at most one more than its throttle rejections, come from one launch identity, and at most one instance of the path ever exists |
| FamilySafety.AuthorizeKeepsNode | daemon/cloud_glider/family_sdk.py:422-448 | what the retirement transaction checks is what a retiring node must satisfy from then on |
| FamilySafety.RetirementSafety | daemon/cloud_glider/family_sdk.py:293-340 | whenever a node is RETIRING each child is owned by the instance it launched there and, above maximum depth, every grandchild has a settled submission and its resource record |
| FamilySafety.TopDownRetirement | daemon/cloud_glider/family_sdk.py:374-417 | all ancestors of a retiring node have terminated, so the nodes the protocol terminates are prefix-closed and a lineage has at most one node in the course of retiring |
| FamilySafety.EveryLineageKeepsANode | daemon/cloud_glider/family_daemon.py:167-179 | every path to maximum depth always has an instance serving, unless a failure or cleanup took one of its instances |
| FamilySingle.AtMostThreeLive | daemon/cloud_glider/family_sdk.py:362-372 | in single mode at most three instances are not terminated, for any depth and any failures |
| FamilyTransactions.InitializesExactly | daemon/cloud_glider/family_sdk.py:104-124 | a running instance claims its own unclaimed row in a cycle under way and is on record from then on, the root as its own owner, everybody else as a candidate |
| FamilyTransactions.LeavesExactly | daemon/cloud_glider/family_sdk.py:459-465 | LEAF is marked exactly by a running owner without children to launch |
| FamilyTransactions.EndsItselfExactly | daemon/cloud_glider/family_sdk.py:450-457 | an instance terminates itself exactly after that second check passed |
| FamilyTransactions.NotesParentExactly | daemon/cloud_glider/family_sdk.py:379-414 | a parent's record gets its termination receipt exactly when it retired under its own receipt and is gone |
| FamilyCleanup.ScanCovers | bootstrap/handler.py:622-626 | when no submission is unsettled after cleanup began, no launch is possible or undecided and the recorded inventory contains every instance ever launched |
| FamilyCleanup.CleanupStaysFinished | bootstrap/handler.py:498-506 | rows are deleted and the cycle is left only by a delivery that has seen every instance terminated |
| FamilyCleanup.NoOrphanAcrossReset | bootstrap/handler.py:590-718 | once cleanup has reset the cycle, or deleted one row, every instance any agent launched in it has terminated and no launch can be in flight |
| FamilyCleanup.NothingAfterCleanup | daemon/cloud_glider/family_sdk.py:35-58 | from the cleanup request on no intent is added, and after the reset no instance ever appears |
| FamilyDeliveries.GuardsExactly | bootstrap/handler.py:383-392 | a delivery goes on exactly in its own cycle, with the cleanup requested and active and both gates closed |
| FamilyDeliveries.ScansExactly | bootstrap/handler.py:622-680 | the inventory is taken exactly when every submission is settled and nothing noted before is missing, and is then all that is on record |
| FamilyDeliveries.EndsExactly | bootstrap/handler.py:687-697 | an instance is terminated exactly if it is in that inventory and not gone, and counts as gone exactly when seen so |
| FamilyDeliveries.DeletesExactly | bootstrap/handler.py:498-506 | rows are deleted, never altered, exactly under the very record the delivery verified |
| FamilyDeliveries.ResetsExactly | bootstrap/handler.py:507-543 | the reset commits exactly under that record, to the next cycle, READY with its gates closed |
| FamilyReset.CleanupCanFinish | bootstrap/handler.py:590-718 | from every state with the cleanup under way and its launches settled one delivery can terminate every instance and reset to the next READY cycle |
| FamilyGateway.FamilyGateway.LaunchChild | daemon/cloud_glider/family_sdk.py:137-173 | whatever others do between its writes it issues at most one request, and an instance it returns is settled in the durable submission; with nobody else stepping in, a request is issued exactly when an intent, or a retry of its own rejection with nothing found, is due; an instance known or made is returned, a throttle is put on record |
| FamilyGateway.FamilyGateway.SubmitChild | daemon/cloud_glider/family_sdk.py:175-204 | one request; when EC2 refused it with a throttle the rejection is on record when this returns, or the agent gives up; a returned instance is settled |
| FamilyGateway.FamilyGateway.RecordRejection | daemon/cloud_glider/family_sdk.py:177-197 | at most eight tries, unanswered writes included; no launch; it reports the throttle only with the receipt durable, and gives up only after the eighth try |
| FamilyGateway.FamilyGateway.RecordChild | daemon/cloud_glider/family_sdk.py:206-222 | resource record before settled submission; success means the durable submission names this instance |
| FamilyGateway.GatewayLaunchesOnce | daemon/cloud_glider/family_sdk.py:137-204 | the gateway's steps are the protocol's, so its table satisfies launch at most once |
| FamilyDaemon.FamilyDaemon.Cycle | daemon/cloud_glider/family_daemon.py:112-179 | if none of the points at which the cycle consults its monitor sees a stop, the cycle has exactly the specified effect and result; if one does, and only then, it ends stopped, with durable stops for itself and its children, nobody retired and its own owner and status as they were; a stop at the first point leaves every row alone; stopped or not, whoever became an owner is a child that had published readiness within the last 15 seconds |
| FamilyDaemon.FamilyDaemon.StopChildren | daemon/cloud_glider/family_daemon.py:98-110 | every path not cancelled before gets its durable stop |
| FamilyCycle.AcceptsExactly | daemon/cloud_glider/family_daemon.py:157-166 | a cycle makes a child an owner exactly when it got that far and that child and all before it had published readiness, at most 15 seconds ago |
| FamilyCycle.SilentChildIsRefused | daemon/cloud_glider/family_sdk.py:239-256 | a child whose readiness is absent, in the future or older than 15 seconds is not made an owner, and its parent does not turn RETIRING |
| FamilyCycle.LaunchesExactly | daemon/cloud_glider/family_daemon.py:136-156 | children are launched and the receipt written exactly by a live owner with children whose grandparent, in single mode, is gone, and not a timeout late |
| FamilyCycle.RetiresExactly | daemon/cloud_glider/family_daemon.py:167-179 | a node turns RETIRING exactly when its own parent is gone and every child is ready and has proved its own launches |
| FamilyCycle.GivesUpExactly | daemon/cloud_glider/family_daemon.py:140-177 | a cycle times out exactly on a first launch that comes too late, a child not ready in time, or a ready one that does not carry on in time |
| FamilyCycle.AnswersExactly | daemon/cloud_glider/family_daemon.py:128-139 | which cycles answer CANDIDATE, LEAF and WAITING_FOR_PARENT |
| FamilyCycle.OwnRowExactly | daemon/cloud_glider/family_daemon.py:124-135 | what a cycle leaves of its node's own row: readiness every five seconds, LEAF at the last generation, termination only with RETIRING |
| FamilyCycle.OthersExactly | daemon/cloud_glider/family_sdk.py:269-283 | what it leaves of every other row: a newly accepted child is an OWNER, a launched one is a fresh candidate, and nothing else changes |
| FamilyCycle.RetiringIsFinished | daemon/cloud_glider/family_daemon.py:116-119 | found RETIRING, a node only asks again for its own termination |
| FamilyProgressProof.StepKeepsInv | daemon/cloud_glider/family_daemon.py:112-179 | a cycle keeps the family's shape and takes nothing back |
| FamilyProgressRuns.SomeAgentAdvances | tests/test_family_daemon.py:29-94 | in every reachable fault-free state that is not final and where no agent has given up there is an agent whose next cycle raises the measure, whenever it comes before a readiness ages out, for every depth and both modes |
| FamilyProgressRuns.AdvancesAreBounded | daemon/cloud_glider/family_daemon.py:112-179 | at most five cycles per node ever advance |
| FamilyProgressRuns.FamilyFinishes | tests/test_family_daemon.py:184-192 | for every depth and both modes 5N turns are enough: some run of that length ends with all interior nodes retired, all leaves kept as owners marked LEAF and nobody given up |
| FamilyProgressRuns.RoundsFinish | tests/test_family_daemon.py:88-94 | every schedule, in any order and at any times, of 5N rounds in each of which every live agent takes a turn ends final, if no readiness ages out and no agent gives up |
| FamilyProgressTime.NobodyGivesUp | daemon/cloud_glider/family_daemon.py:140-177 | if every live agent's turns are at most gap seconds apart, gap at most 11 and less than a third of readiness_timeout_seconds, no published readiness ages out and no cycle ends in a timeout, in any order of turns |
| FamilyProgressTime.PunctualFamilyFinishes | tests/test_family_daemon.py:88-94 | and the family of N nodes is final once 5 N gap seconds have passed, whatever the schedule |
| FamilyProgressTime.RoundRobinFinishes | tests/test_family_daemon.py:88-94 | giving every agent a turn each second, with the clock advancing, a family of N nodes with a timeout above three seconds is final after 5N + 1 seconds, no agent having given up |
| FamilyProgressRuns.FinalStays | daemon/cloud_glider/family_daemon.py:132-135 | no later cycle changes that: leaves are kept |
| Ec2ChainSafety.CurrentMovesByOne | daemon/cloud_glider/ec2_sdk.py:544-600 | CURRENT's generation moves only by one, to a recorded instance its present owner launched |
| Ec2ChainTransactions.HandsOffExactly | daemon/cloud_glider/ec2_sdk.py:544-600 | CURRENT is handed over exactly by its owner with the predecessor retired, the successor recorded, the lease held and every fence open |
| Ec2ChainTransactions.NothingPassesTheFence | daemon/cloud_glider/ec2_sdk.py:544-600 | over any run in which propagation is disabled or a hold, stop or cleanup stands, CURRENT is handed to nobody and no generation is submitted |
| Ec2ChainTransactions.ConfirmsExactly | daemon/cloud_glider/ec2_daemon.py:765-877 | retirement is confirmed exactly when there is no predecessor, it was marked when CURRENT was read, or the predecessor has terminated and can be marked now |
| Ec2ChainTransactions.TerminatesExactly | daemon/cloud_glider/ec2_daemon.py:819-875 | a predecessor is terminated exactly when CURRENT as read authorizes it and it still runs |
| Ec2ChainTransactions.SubmitsExactly | daemon/cloud_glider/ec2_sdk.py:346-400 | a generation is submitted exactly once, by its owner, up to the maximum and under open fences |
| Ec2ChainTransactions.FindsExactly | daemon/cloud_glider/ec2_sdk.py:295-344 | a successor is found exactly as the daemon's own running child |
| Ec2ChainTransactions.AcquiresExactly | daemon/cloud_glider/aws_sdk.py:450-470 | the lease is taken exactly when it is free, expired or already its own |
| Ec2ChainTransactions.LeaseMovesExactly | daemon/cloud_glider/aws_sdk.py:472-500 | only its holder renews or releases it |
| Ec2ChainSafety.OneLaunchPerGeneration | daemon/cloud_glider/ec2_sdk.py:346-400 | at most one RunInstances per generation and at most one instance of it, across crashes and lost answers |
| Ec2ChainSafety.OwnershipIsSafe | daemon/cloud_glider/ec2_daemon.py:765-877 | what the protocol terminates is behind CURRENT; a daemon that saw itself own CURRENT still does, and no two do, lease or no lease |
| Ec2ChainSafety.HandOffKeepsInv | daemon/cloud_glider/ec2_daemon.py:931-952 | a handoff waits for the predecessor's termination, so with the next owner everything two generations behind is gone |
| Ec2ChainSafety.AtMostThreeLive | daemon/cloud_glider/ec2_daemon.py:904-958 | at most three instances of the chain are not terminated |
| Ec2Daemon.Ec2Daemon.Cycle | daemon/cloud_glider/ec2_daemon.py:904-958 | the cycle takes only steps of the chain and ends with its lease given up; a completed handoff has moved CURRENT past this daemon with its own predecessor gone; undisturbed, an owner whose successor is there and ready in time hands CURRENT to it, and at the last generation reports MAX_GENERATION_REACHED |
| Ec2Daemon.Ec2Daemon.RetirePredecessor | daemon/cloud_glider/ec2_daemon.py:765-877 | true only when the predecessor has terminated; undisturbed, true exactly for the seed, for a retirement already marked and for a predecessor that is gone, CURRENT then marked completed, and a predecessor still running is left shutting down |
| Ec2Daemon.Ec2Daemon.ProvisionSuccessor | daemon/cloud_glider/ec2_daemon.py:505-660 | undisturbed, a successor that is there is recorded; otherwise one request is issued, and the instance EC2 makes is recorded |
| Ec2Daemon.Ec2Daemon.WaitForReadySuccessor | daemon/cloud_glider/ec2_daemon.py:661-708 | undisturbed and holding the lease it succeeds exactly when some poll within the bound finds readiness, with the lease renewed before each |
| ControlMonitor.ControlMonitor.Tick | daemon/cloud_glider/family_daemon.py:47-66 | the tick's new state and result, for every reply of the pending read |
| ControlMonitor.BoundedStop | daemon/cloud_glider/family_daemon.py:50-63 | with a stop in force from T after construction no tick at or after T + control_max_age_seconds returns unstopped, whatever the delays and failures |
| ControlMonitor.BoundIsTight | daemon/cloud_glider/family_daemon.py:60-62 | one second earlier a stop can still go unnoticed, for every setting |
| ControlMonitor.StopIsFinal | daemon/cloud_glider/family_daemon.py:52 | a stop is never taken back |
| ControlMonitor.StopsExactly | daemon/cloud_glider/family_daemon.py:47-66 | it has stopped if and only if it began disabled, or some tick collected a stop or found the last answered read, dated from its submission, too old |
| ControlMonitor.ReadsAreSpaced | daemon/cloud_glider/family_daemon.py:63-65 | reads are submitted a poll interval apart at least |
| ControlMonitor.OneReadOutstanding | daemon/cloud_glider/family_daemon.py:63-65 | a tick submits at most one read and none while one is outstanding |
| TimingExport.Sanitize | daemon/cloud_glider/timing_export.py:15-28 | the loop keeps exactly the known fields with safe values of a known event, and refuses every other event |
| TimingExport.SafeIsExact | daemon/cloud_glider/timing_export.py:20-28 | which values are exported: null, flags, numbers below 10^12 in size, and short texts of a fixed alphabet |
| TimingExport.Exporter.Enqueue | daemon/cloud_glider/timing_export.py:52-72 | a record is accepted exactly when its event is known, the exporter is open (or it is the startup record), the queue has room and both byte bounds hold; it then gets the next sequence number and goes into the digest, and a known record turned away is counted as dropped |
| TimingExport.Exporter.UploadLines | daemon/cloud_glider/timing_export.py:81-99 | three attempts against any answers: success only after one stored everything, retries counted, no retry after a refusal |
| TimingExport.UploadIsExact | daemon/cloud_glider/timing_export.py:81-99 | it stops at the first answered attempt or the third, and succeeds exactly if that one stored everything |
| TimingExport.Exporter.FillBatch | daemon/cloud_glider/timing_export.py:119-130 | a batch is a non-empty prefix of the queue, in order: all of it, or as much as the batch bound or the deadline allows |
| TimingExport.Exporter.Drain | daemon/cloud_glider/timing_export.py:117-148 | once sealed the worker ends, queue empty and marker written, every accepted record uploaded or lost, whatever the service answers; its steps are a run of the protocol |
| TimingExport.MarkerAccounts | daemon/cloud_glider/timing_export.py:137-146 | at the marker the accepted records are the uploaded and the lost ones, counted and digested; complete means none was lost and all are stored |
| TimingExport.ReceiptsAreExact | scripts/verify_timing_collection.py:40-74 | any collection of the producer's lines with its marker is accepted if and only if the marker says complete and the lines are, up to order and exact duplicates, the accepted records and the marker |
| TimingExport.StoredCollectionIsAccepted | scripts/verify_timing_collection.py:40-74 | what the service holds of a complete collection is accepted |
| TimingExport.DeliveredCollectionIsAccepted | daemon/cloud_glider/timing_export.py:101-148 | if the stream opened, each upload was at last stored and nothing was dropped before the marker, the marker says complete and what the service holds is accepted |
| TimingValidate.Validate | scripts/verify_timing_collection.py:40-74 | the check accepts if and only if the set of lines is complete, a definition without order, duplicates or dictionaries, and then reports the number of producers and of distinct records |
| TimingValidate.WellFormedExactly | scripts/verify_timing_collection.py:44-54 | a line is well formed exactly with seven identity tags, a producer, and, unless it is a marker, a number and the record id made of both |
| TimingValidate.Collect | scripts/verify_timing_collection.py:41-55 | the dictionary loop stops exactly when two lines disagree or one is malformed, and otherwise holds what the lines say |
| TimingValidate.CheckEntry | scripts/verify_timing_collection.py:57-69 | one producer passes exactly when a marker certifies its records and, if asked, its boot phases are covered |
| TimingValidate.CertifiedBy | scripts/verify_timing_collection.py:59-63 | counting the numbers and hashing in sorted order is the same as the digest being over records numbered 1, 2, ..., n that are all there are |
| AlarmCleanup.CleanupStatusAlarms | bootstrap/handler.py:547-587 | nothing is deleted unless every page for every recorded name was validated, continuations followed in order; the deleted names are the validated ones, once each, in order, at most 100 at a time; the describe calls are bounded |
| AlarmCleanup.DescribeBatch | bootstrap/handler.py:561-583 | the page loop follows every continuation token of the batch to the last page, ends within one call per name and one more, and has then listed every name of the batch |
| AlarmCleanup.ExpectedNames | bootstrap/handler.py:548-555 | it fails exactly when an instance has no record or two share an alarm name |
| HeartbeatGate.WaitForHealthySuccessor | daemon/cloud_glider/daemon.py:413-447 | it returns a successor exactly when enough heartbeats were counted, at the first poll where they were; after at most timeout / poll + 1 polls; a lost lease, a missing or a failed stack ends the wait exactly at the poll that shows it |
| HeartbeatGate.ReadyMeansHealthy | daemon/cloud_glider/daemon.py:432-445 | then the required number of distinct heartbeats was seen, each approved, of a created stack and at most three longer intervals old when read, neighbours an interval apart and the first and last (required - 1) intervals |
| HeartbeatGate.ObservedExactly | daemon/cloud_glider/daemon.py:449-480 | the heartbeats that may count are exactly the approved and fresh ones of a created stack |
| HeartbeatGate.GateIsExact | daemon/cloud_glider/daemon.py:432-445 | counting greedily misses no chain: a long enough spaced chain of eligible heartbeats exists if and only if the counted one is long enough |

## Left out

- Transport, IMDS, S3, user data and template comparisons are not part of this model; a call to EC2 succeeds, is throttled, fails or stays unanswered. A DynamoDB write takes effect before its call returns or not at all.
- Digests and client tokens are injective: the digest of lines is the lines, the token of a launch is its parent instance and child position, the configuration digest is the configuration.
- Identity comparisons of instances, launch templates and stacks count as matching for the instances the protocol launched; a foreign instance is never found under a family's tag or token.
- Table scans and inventories are atomic; the pagination of `retrieve` and of instance listings is not modelled.
- The family's cleanup follows the direct instances; stacks, volumes, alarms and CURRENT are deleted outside of it (alarms are in `AlarmCleanup`). The seed, which its bootstrap stack owns, is only in the inventory if it recorded itself.
- Cleanup retry schedules appear only as the retry token and as deliveries that may happen at any time; the 180 second and 30 minute limits are the environment's choice to raise attention.
- The console's edits may touch any attribute but the command sequence, which no operator interface offers.
- Operator commands, cleanup deliveries and the bootstrap claim are modelled on values, one function per transaction: the in-place building of request dictionaries inside `consume_command`, `process` and `cleanup_step` is not captured.
- The multi-item retirement, acceptance and propagation transactions are single steps of `Family`; only the launching half of the gateway is also a class.
- `FamilyProgress` covers a fault-free family: EC2 answers at once, retirement is immediate, and a cycle reads its clock once. An agent that times out takes no further turn; the hold it then raises is not followed. The theorems bound only how late turns may come.
- `FamilyProgress` is not connected step by step to `Family`: both model the same daemon, `Family` its transactions under every fault and `FamilyProgress` its whole cycles without any.
- `Ec2Chain` omits capacity, quota, health and dry-run precautions and the repeated control reads, which only remove behaviour; readiness proofs and audit items are not modelled, and a reset of CURRENT by cleanup ends the runs considered.
- The stack-based predecessor of the chain contributes only its heartbeat gate.
- `HeartbeatGate` takes heartbeat numbers and times as integers, and `GateIsExact` supposes that rows are read in the order written with one number per heartbeat.
- `TimingValidate` keeps JSON booleans, integers and fractions apart where Python would equate true with 1 or 1 with 1.0; a line whose check would raise another exception is rejected under the nearest failure.
- `TimingExport` leaves timing to the environment: when a batch's deadline passes, and how long `close` waits. JSON encoding is not modelled, so a record's encoded size is given with it and may be anything.
- The order in which alarm names are batched is the order of the instance ids rather than sorted names; which name is in which batch does not matter to the results.
- Logging, phase timing, the observer, IAM rendering, image building and operator scripts other than `lifecycle.py` are not part of this model.
