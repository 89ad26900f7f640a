# A verified model of the agent hub

The repository is a durable coordination hub: one orchestrator (Alice), any number of workers, a sweeper,
and a clock that may be stepped either way. This project models the parts whose correctness spans many
calls and proves them in Dafny.

| files | what they model |
|---|---|
| `HubTypes`, `HubSpec` | the rows of the hub and each of its seventeen transactions as a total function from state to state, response and wakeups; runs are sequences of timed calls |
| `HubStore` | the store as a class that updates its tables in place, each method proved to be its transition |
| `Growth`, `AgentHistory`, `Holder`, `Leases`, `Questions`, `Endings`, `Deliveries`, `Redelivery` | the seven invariants of the tables, what no call can undo, and what follows from them |
| `Outcomes`, `Sweeping`, `Truth` | what each transaction leaves in the tables, field by field and stated without its body; and that every event ever queued is borne out by the tables |
| `HubRuns`, `Replays` | claims over whole runs from the empty hub, and the store object going through them |
| `Stamps`, `Witnesses` | when liveness stamps fall, and runs on which plausible claims fail |
| `Protocol` | the guards of the A2A surface and instance fencing |
| `Signals`, `Wakeups`, `Wiring` | the waiter registry, held requests racing with writers at the grain of single lock and flag operations, and the registry's methods as steps of that race |
| `Client`, `ExactlyOnce` | the worker client's pending ids, and clients, hub and a network that loses, repeats and delays messages |
| `Intervals`, `AgentTime` | the time accounting of the report on whole ticks |
| `Driver` | the checkpointed scenario driver, which may crash at any write while others change the remote |
| `Rebuild` | the transactional table rebuild |

Conventions. A raised error is a `Refused` response with the state unchanged. `now` and fresh ids are
arguments, so every claim is for any clock and any ids; where the event loop's timer matters too (`Wakeups`), it is a
second clock that only advances, and nothing ties the two together. Rows are never deleted from the task, message, event
and decision tables, so a row's position is its id. Where the source chooses among outside observations
(network outcomes, approvals, checks, crashes), the model takes them as an argument or lets them be anything.

Six plausible claims are false of the code. The code is followed; each claim has a run that breaks it and the
exact condition under which it holds:

- *The answer pending for a question is its answer.* Not if a newer question came before the reply, nor if Alice
  ended the task instead: `Witnesses.AnswerCanBeAnothers`, `Witnesses.AnswerCanBeAnOverride`, and
  `Questions.FirstAnswer` for when.
- *Liveness stamps only rise.* An accepted check-in sets them to the clock, which may have been set back:
  `Witnesses.StampsCanFall`, and `Stamps.StampFallsIff` for when.
- *A refused assignment stays refused.* Nothing of it remains, and its redelivery may make the task:
  `Witnesses.RefusedThenMade`, and `Redelivery.AssignActsIff` for when.
- *Acked events are a prefix of the queue.* Not if a lease is taken while a delivery is running:
  `Witnesses.OrderCanBreak`, and `Deliveries.AckedInOrder` for when.
- *The driver recovers from every crash.* Not from one between staging a file and committing, which leaves the
  clone dirty: `Driver.Stranded`, and `Driver.ScenarioDriver.Drive` for when. As long as others leave the remote alone,
  two calm passes finish from every other crash.
- *A held request for events sleeps at most ten milliseconds past an expiry.* Not if the clock was set forward
  meanwhile: `Witnesses.OversleepsIff`, for every amount.

Likewise the hub's payload conflict is out of reach of the ids clients mint (`ExactlyOnce.MintedNeverClash`,
`ExactlyOnce.ConflictUnreachable`) and within reach of a caller that supplies its own
(`ExactlyOnce.ConflictReachable`). `ExactlyOnce.ConflictIff` says when a request is refused that way, and
`ExactlyOnce.ClashMeansTwoUses` what the callers must have done.

`dafny verify dfyconfig.toml` checks everything.

## Model

| member | source | states |
|---|---|---|
| `HubRuns.Reachable` | packages/hub/src/agent_hub/store.py:386-1794 | from the empty hub, any calls in any order at any clock readings keep every invariant of the tables |
| `HubRuns.StepKeeps` | packages/hub/src/agent_hub/store.py:386-1794 | each of the seventeen transactions keeps the conjunction of all seven invariants |
| `HubRuns.RunExtends` | packages/hub/src/agent_hub/store.py:1451-1483 | over any run rows are only appended, terminal task rows, messages, decisions and recorded operations never change, released agents stay released |
| `HubRuns.HoldersMatch` | packages/hub/src/agent_hub/store.py:1416-1439 | in every reachable state an agent's open tasks are exactly its current task; busy agents hold one, idle and lost agents none |
| `HubRuns.LeasesBounded` | packages/hub/src/agent_hub/store.py:1710-1737 | in every reachable state an open task's lease ends by creation plus cap, and its expiry was reported once if the lease is gone, never if held, at most once ever |
| `HubRuns.RedeliveryIsHarmless` | scripts/mock-alice.py:789-851 | an Alice action that took effect, then any run, then the same action: the hub is left exactly as it is; only an action that set the workflow status asks that the run does not set it |
| `HubRuns.ScriptAgain` | scripts/mock-alice.py:789-884 | all the calls Alice makes for an event, repeated after each took effect once somewhere in any run, change nothing |
| `HubRuns.ScriptResumed` | scripts/mock-alice.py:789-884 | cut short after any number of its calls took effect and taken up again from the start, her script does exactly what the rest of it alone would do |
| `HubRuns.ActedStands` | packages/hub/src/agent_hub/store.py:877-911 | one action of such a script, repeated at the end of any run in which it took effect, is a no-op |
| `HubRuns.QuestionAskedOnce` | packages/hub/src/agent_hub/store.py:1065-1099 | a question sent again under its message id, at any later time of any run, gets the first row's id and adds no message, event or wakeup while the task is open |
| `HubRuns.ReleasedForGood` | packages/hub/src/agent_hub/store.py:820-833 | a released agent is released in every later state and no task row added later is assigned to it |
| `HubRuns.LossesAlternate` | packages/hub/src/agent_hub/store.py:1739-1779 | in any run, between two agent_lost events of one agent lies an agent_checked_in event of it |
| `HubRuns.SweepTwice` | packages/hub/src/agent_hub/store.py:1686-1708 | a second sweep at the same time queues nothing, changes no row and wakes nobody |
| `HubRuns.EveryEndingAccountedFor` | packages/hub/src/agent_hub/store.py:1375-1439 | in any run, ended tasks = completion and failure events + losses that took a task + overrides + cancels carried out |
| `HubRuns.EndedForGood` | packages/hub/src/agent_hub/store.py:1399-1403 | a terminal task keeps its whole row, state and result, through any further run |
| `HubRuns.OnlyCancelCancels` | packages/hub/src/agent_hub/store.py:1375-1391 | no transaction but a cancel leaves a canceled row without a result |
| `HubRuns.Perform` | packages/hub/src/agent_hub/store.py:386-1794 | one call on the store object is one step of a run and keeps every invariant |
| `HubRuns.PerformAll` | packages/hub/src/agent_hub/store.py:386-1794 | a store object that starts empty and is given any calls ends in exactly the state the run theorems speak of |
| `Stamps.StampFallsIff` | packages/hub/src/agent_hub/store.py:599-706 | under any call at any clock reading a liveness stamp of an agent falls if and only if its own check-in is accepted while the clock shows less than the stamp |
| `Stamps.HeartbeatIsMonotone` | packages/hub/src/agent_hub/store.py:739-780 | no heartbeat lowers either stamp of anyone, and an accepted one raises both of its sender's to at least the clock |
| `Stamps.CheckInResets` | packages/hub/src/agent_hub/store.py:647-684 | an accepted check-in sets both stamps to the clock whatever they were and touches no other agent |
| `Witnesses.StampsCanFall` | packages/hub/src/agent_hub/store.py:647-684 | a reachable run in which both stamps fall from 10 to 5: check-in, loss, clock set back, check-in |
| `Witnesses.OrderCanBreak` | packages/hub/src/agent_hub/store.py:1535-1571 | a reachable run in which two leases at one instant put both events out, so the order is lost |
| `Witnesses.RefusedThenMade` | packages/hub/src/agent_hub/store.py:912-923 | a reachable run in which an assignment is refused with a conflict and the same assignment, redelivered, makes its task |
| `Witnesses.AnswerCanBeAnothers` | packages/hub/src/agent_hub/store.py:1179-1188 | a reachable run in which the reply pending for a superseded question answers the newer one and not it |
| `Witnesses.AnswerCanBeAnOverride` | packages/hub/src/agent_hub/store.py:1179-1188 | a reachable run in which what is pending for a task's only question is the override that ended the task |
| `Witnesses.OversleepsIff` | packages/hub/src/agent_hub/store.py:1587-1626 | in some run a request sleeps on for longer than 10 ms with something to find and nobody about to wake it, with a given gain of the clock on the timer since it read the clock, if and only if that gain is more than 10 ms |
| `Growth.StepExtends` | packages/hub/src/agent_hub/store.py:1451-1483 | one transaction only appends rows and leaves columns written once alone |
| `Growth.StepSteady` | packages/hub/src/agent_hub/store.py:1441-1449 | only check-ins, heartbeats and releases touch an agent row beyond its status, current task and progress stamp, and nothing else releases an agent |
| `Growth.SweepExtends` | packages/hub/src/agent_hub/store.py:1686-1708 | the two passes of a sweep only move open tasks and live agents forward |
| `Growth.Transitive` | packages/hub/src/agent_hub/store.py:1451-1483 | growing composes over steps, which is what lets per-call facts speak about runs |
| `AgentHistory.StepKeeps` | packages/hub/src/agent_hub/store.py:599-642 | contexts are places on the roster, no two live agents share a workspace, and every agent_lost follows a check-in of that agent with no other loss between |
| `AgentHistory.CheckInKeeps` | packages/hub/src/agent_hub/store.py:599-706 | a check-in keeps workspaces of live agents apart and the loss log alternating |
| `AgentHistory.CheckInBetween` | packages/hub/src/agent_hub/store.py:1739-1779 | a loss followed by presence has a check-in of the same agent in between |
| `AgentHistory.LoseKeeps` | packages/hub/src/agent_hub/store.py:1739-1779 | the silence pass visits agents on rows read up front and still loses each live agent at most once |
| `Holder.StepKeeps` | packages/hub/src/agent_hub/store.py:912-948 | every call keeps open tasks and current tasks a one-to-one matching |
| `Holder.OneOpenTaskEach` | packages/hub/src/agent_hub/store.py:912-948 | two open tasks of one agent are the same task |
| `Holder.ClaimIsCurrent` | packages/hub/src/agent_hub/store.py:1642-1654 | the task a claim hands out is the claimant's current task and assigned to it |
| `Holder.FinishKeeps` | packages/hub/src/agent_hub/store.py:1416-1439 | ending a task frees exactly its holder |
| `Holder.CheckInKeeps` | packages/hub/src/agent_hub/store.py:647-666 | re-admission keeps the open task an agent still holds, and its status agrees with it |
| `Holder.LoseKeeps` | packages/hub/src/agent_hub/store.py:1747-1767 | failing a lost agent's task by the row read up front keeps the matching |
| `Leases.StepKeeps` | packages/hub/src/agent_hub/store.py:781-803 | no call at any clock reading moves a lease past its cap or reports a lease twice |
| `Leases.CapAhead` | packages/hub/src/agent_hub/store.py:790-797 | after the expiry check the cap is still in the future, so the clamp to a passed cap never runs |
| `Leases.HeartbeatNeverShortens` | packages/hub/src/agent_hub/store.py:781-803 | a heartbeat at any clock reading leaves every held lease held, no earlier, and within the cap |
| `Leases.LapsedStaysLapsed` | packages/hub/src/agent_hub/store.py:786-792 | a lease that has run out, swept or not, is never renewed |
| `Leases.SweepKeeps` | packages/hub/src/agent_hub/store.py:1710-1737 | after a sweep no task is overdue |
| `Leases.SweptPastCap` | packages/hub/src/agent_hub/store.py:1710-1737 | a task still open after a sweep at or past its cap has exactly one lease_expired event |
| `Questions.StepKeeps` | packages/hub/src/agent_hub/store.py:1054-1188 | an open task awaits input exactly when its last turn is a question, each reply directly follows its question, no message id is asked twice on a task |
| `Questions.ReplyAppliedIff` | packages/hub/src/agent_hub/store.py:1123-1177 | a fitting reply is applied if and only if it names the question holding the last turn of an open task |
| `Questions.PriorNeverFires` | packages/hub/src/agent_hub/store.py:1147-1158 | the search for an earlier reply finds nothing whenever it is reached |
| `Questions.OneReplyEach` | packages/hub/src/agent_hub/store.py:1129-1177 | a question is answered at most once |
| `Questions.EveryReplyAnswers` | packages/hub/src/agent_hub/store.py:1129-1177 | every reply on record answers a question of its own task |
| `Questions.AskedAgain` | packages/hub/src/agent_hub/store.py:1101-1121 | a question on record under a message id is found again in any grown state, and nothing is added |
| `Questions.RetryResumes` | packages/hub/src/agent_hub/store.py:1101-1121 | asking under the newest question's message id returns its row, with no second question, event or wakeup |
| `Questions.RetryGetsItsAnswer` | packages/hub/src/agent_hub/store.py:1179-1188 | after such a retry nothing is pending exactly while the task awaits input, and what is pending answers that very question |
| `Questions.FirstAnswer` | packages/hub/src/agent_hub/store.py:1179-1188 | for any question: what is pending is an override of its task or a reply to the newest question before it, and answers the one asked about if and only if it is no override and no newer question came between |
| `Endings.StepKeeps` | packages/hub/src/agent_hub/store.py:1327-1351 | every ended task has exactly one record of its ending and every open task none |
| `Endings.BooksBalance` | packages/hub/src/agent_hub/store.py:1375-1439 | the per-task records add up to the totals over the event log, the transcript and the task table |
| `Endings.ResultEnds` | packages/hub/src/agent_hub/store.py:1312-1351 | an accepted result ends one task with one event, and anything else changes no row |
| `Endings.OverrideEnds` | packages/hub/src/agent_hub/store.py:527-546 | a manual override ends one task with one transcript message, or changes nothing |
| `Endings.CancelEnds` | packages/hub/src/agent_hub/store.py:1375-1391 | a cancel ends one task and writes neither message nor event; it changes nothing exactly when refused |
| `Endings.LoseOneEnds` | packages/hub/src/agent_hub/store.py:1753-1778 | losing an agent ends at most its open task, with one agent_lost event |
| `Deliveries.StepKeeps` | packages/hub/src/agent_hub/store.py:1495-1571 | against the log of leases, each event's delivery id is its newest lease and its attempt count the number of its leases |
| `Deliveries.AckCountsIff` | packages/hub/src/agent_hub/store.py:1507-1533 | an ack succeeds if and only if it names the newest lease of a still unacked event, expired or not |
| `Deliveries.AckMovesOne` | packages/hub/src/agent_hub/store.py:1507-1533 | a successful ack moves exactly the row its delivery was for |
| `Deliveries.AckedIsFinal` | packages/hub/src/agent_hub/store.py:1538-1571 | an acked event's row never changes again |
| `Deliveries.AckedInOrder` | packages/hub/src/agent_hub/store.py:1495-1571 | for any run: the acked events are a prefix of the queue with at most the next delivered, at every moment, if and only if each lease that hands an event out is taken when no delivery is running |
| `Deliveries.LeaseAhead` | packages/hub/src/agent_hub/store.py:1535-1571 | a lease after which the order still holds was taken when no delivery was running |
| `Deliveries.WaitForEvent` | packages/hub/src/agent_hub/store.py:1667-1682 | one poll acks the previous delivery and leases the next event |
| `Deliveries.Drain` | packages/hub/src/agent_hub/store.py:1667-1682 | polling at a time past all expiries terminates, hands over each unacked event once in increasing id order, and leaves all of them acked |
| `Redelivery.StepKeeps` | packages/hub/src/agent_hub/store.py:877-911 | each source event has at most one task and each decision key at most one row, after every call |
| `Redelivery.AssignAgain` | packages/hub/src/agent_hub/store.py:877-911 | a repeated assignment returns the task the first one made, on its original terms, and changes nothing |
| `Redelivery.ReplyAgain` | packages/hub/src/agent_hub/store.py:1131-1177 | once applied, the same reply is declined for ever after and adds nothing |
| `Redelivery.DecisionAgain` | packages/hub/src/agent_hub/store.py:511-525 | a keyed decision logged again returns the first row's id |
| `Redelivery.EndAgain` | packages/hub/src/agent_hub/store.py:1375-1403 | an override or cancel that took effect is refused when repeated |
| `Redelivery.StatusStands` | packages/hub/src/agent_hub/store.py:494-509 | over any run without a status call the workflow status is unchanged |
| `Redelivery.ActAgain` | packages/hub/src/agent_hub/store.py:494-546 | any event action that took effect is a no-op in every later state |
| `Redelivery.RefusalsLeaveNoTrace` | packages/hub/src/agent_hub/store.py:843-959 | a call that raises changes no row and wakes nobody |
| `Redelivery.AssignActsIff` | packages/hub/src/agent_hub/store.py:843-948 | an assignment, first or redelivered, acts if and only if its head is valid, a workflow exists, its source event exists and has no task yet, its assignee is idle and its instructions fit; then it makes exactly one task |
| `Outcomes.InitializeDoes` | packages/hub/src/agent_hub/store.py:402-441 | the workflow is created once, active, exactly under sound rails; the same goal and rails again change nothing, others are refused |
| `Outcomes.StatusDoes` | packages/hub/src/agent_hub/store.py:494-509 | a new status is set and logged once with its explanation, the same one is not logged |
| `Outcomes.DecisionDoes` | packages/hub/src/agent_hub/store.py:511-525 | the id returned is that of the row under the key, or of one new row that says what was asked |
| `Outcomes.CheckInActsIff` | packages/hub/src/agent_hub/store.py:599-642 | a check-in under a new id acts if and only if its name is not live, no other live agent sits in its workspace and its profile fits; otherwise nothing changes |
| `Outcomes.CheckInDoes` | packages/hub/src/agent_hub/store.py:636-684 | it starts the given instance on the agent's own context, idle without a task when new or lost before, released still if released, and changes no other agent |
| `Outcomes.CheckInTells` | packages/hub/src/agent_hub/store.py:685-710 | it adds one transcript row, one event and, for a new name, one place on the roster, and touches no task |
| `Outcomes.CheckInAgain` | packages/hub/src/agent_hub/store.py:585-597 | another check-in under an id that went through gets its answer if and only if it asks for the same, capabilities in any order, and else is refused |
| `Outcomes.HeartbeatHeard` | packages/hub/src/agent_hub/store.py:739-780 | a heartbeat is heard exactly from the current instance of an agent that is not lost; both stamps become the later of what they were and the clock |
| `Outcomes.HeartbeatRenews` | packages/hub/src/agent_hub/store.py:781-804 | it renews exactly an unexpired lease of the task its agent names and holds, to what the duration gives from now on or the cap if sooner, never to less than it was |
| `Outcomes.ReleaseDoes` | packages/hub/src/agent_hub/store.py:820-833 | releasing changes the status alone and wakes the agent's own waiter, the first time only |
| `Outcomes.LowerIsSame` | packages/hub/src/agent_hub/store.py:858-863 | a commit id is stored as the same hexadecimal digits in lower case |
| `Outcomes.ShaIff` | packages/hub/src/agent_hub/store.py:858-863 | a commit id is accepted if and only if it has such a stored form |
| `Outcomes.AssignMakes` | packages/hub/src/agent_hub/store.py:925-948 | the task made is the one described, submitted, created now, leased from now on for what was asked or the cap, whichever is less |
| `Outcomes.AssignTells` | packages/hub/src/agent_hub/store.py:912-959 | its assignee, idle until then, is busy with it, gets the instructions and is woken; nothing else changes |
| `Outcomes.AssignedAlready` | packages/hub/src/agent_hub/store.py:877-911 | for a source event with a task, an assignment is accepted if and only if it describes that very task, and changes nothing |
| `Outcomes.ClaimIsOldest` | packages/hub/src/agent_hub/store.py:1642-1654 | the task a claim picks is the first of the oldest submitted ones of its agent |
| `Outcomes.ClaimDoes` | packages/hub/src/agent_hub/store.py:1642-1654 | a claim hands out the submitted task of its agent and sets it to work, and nothing else changes; a released agent is told so |
| `Outcomes.ClaimTwice` | packages/hub/src/agent_hub/store.py:1642-1654 | a second claim finds nothing |
| `Outcomes.ProgressDoes` | packages/hub/src/agent_hub/store.py:1018-1052 | a note on an open task reaches the transcript and Alice word for word and stamps its author; any other is refused without trace |
| `Outcomes.ProgressAgain` | packages/hub/src/agent_hub/store.py:1002-1014 | another note under an id that went through gets its answer if and only if it is the same text on the same task, and else is refused |
| `Outcomes.QuestionDoes` | packages/hub/src/agent_hub/store.py:1054-1099 | a new question parks its task and reaches the transcript and Alice word for word, who is told the row she must reply to |
| `Outcomes.QuestionRoundTrip` | packages/hub/src/agent_hub/store.py:1054-1177 | a fitting reply to the row named in the event of a question just asked is applied, and is then what the worker's hold finds |
| `Outcomes.ReplyDoes` | packages/hub/src/agent_hub/store.py:1123-1177 | an applied reply reaches the worker word for word, puts the task back to work and wakes its waiter; any other changes nothing |
| `Outcomes.ResultDoes` | packages/hub/src/agent_hub/store.py:1242-1351 | a result under a new id ends its open task completed if and only if its outcome or verdict counts as success, else failed, frees its holder, and queues the one matching event |
| `Outcomes.ResultAgain` | packages/hub/src/agent_hub/store.py:1312-1325 | another result under an id that went through gets its answer if and only if it is the same result for the same task, and else is refused |
| `Outcomes.ResultTells` | packages/hub/src/agent_hub/store.py:1312-1351 | its summary, if within its cap, reaches the transcript word for word |
| `Outcomes.OverrideDoes` | packages/hub/src/agent_hub/store.py:527-546 | an override ends an open task as failed or canceled, whichever was said, with the note in transcript and result, and wakes the task's and the assignee's waiters |
| `Outcomes.CancelDoes` | packages/hub/src/agent_hub/store.py:1375-1391 | a cancel ends an open task as canceled without a word, frees its holder and wakes the same two |
| `Outcomes.LeaseDoes` | packages/hub/src/agent_hub/store.py:1535-1571 | a lease hands out the oldest event queued or expired, under a delivery id never used before, until now plus the lease; nothing if and only if none waits |
| `Leases.CapIs` | packages/hub/src/agent_hub/store.py:806-818 | the cap is the policy's if it sets one, else 120 minutes |
| `Sweeping.SweepLosesIff` | packages/hub/src/agent_hub/store.py:1739-1779 | an agent is lost after a sweep if and only if it was before, or was idle or busy and its last heartbeat plus the limit is not after the clock; every other row stays |
| `Sweeping.SweepTasks` | packages/hub/src/agent_hub/store.py:1710-1779 | exactly the open tasks of agents newly lost fail, exactly the other open tasks whose lease ran out lose it, every other task stays |
| `Sweeping.SweepTells` | packages/hub/src/agent_hub/store.py:1686-1708 | each new event is of a lease that ran out or of an agent newly lost, and Alice is woken if and only if there is one |
| `Sweeping.SweepTellsOfLease` | packages/hub/src/agent_hub/store.py:1710-1737 | a lease that ran out is reported exactly once, naming its task, assignee and expiry |
| `Sweeping.SweepTellsOfLoss` | packages/hub/src/agent_hub/store.py:1739-1779 | an agent newly lost has exactly one event, naming the open task it held and the heartbeat read |
| `Truth.AlwaysTrue` | packages/hub/src/agent_hub/store.py:386-1794 | over every run each event on record is true of the tables: who checked in, what was noted, which message asks what of whom, which task ended how, whose lease ran out, who was lost with what |
| `Truth.StepKeeps` | packages/hub/src/agent_hub/store.py:386-1794 | each transaction adds only events true when it commits, and makes no earlier one false |
| `Replays.ReplaysAreInvisible` | packages/hub/src/agent_hub/store.py:585-597 | removing from any trace every call whose (actor, operation id) already succeeded leaves the final state and all other responses as they were |
| `Replays.ReplayAnswersAlike` | packages/hub/src/agent_hub/store.py:1313-1325 | at any later time the same operation gets its first response, and another payload under its id is refused |
| `Replays.ReplayChangesNothing` | packages/hub/src/agent_hub/store.py:1002-1014 | a replay changes no row and wakes nobody, whatever has become of task or agent |
| `Store.HubStore.InitializeWorkflow` | packages/hub/src/agent_hub/store.py:402-441 | in place, its transition: same goal and policy again is fine, any other is refused, a non-positive lease rail is invalid |
| `Store.HubStore.SetWorkflowStatus` | packages/hub/src/agent_hub/store.py:494-509 | in place, its transition: a changed status is logged without a key, the same status is not logged |
| `Store.HubStore.LogDecision` | packages/hub/src/agent_hub/store.py:511-525 | in place, its transition: a known key returns the first row |
| `Store.HubStore.CheckIn` | packages/hub/src/agent_hub/store.py:550-710 | in place, its transition: replay, workspace and name conflicts, re-admission, one message, one event, one operation row |
| `Store.HubStore.Heartbeat` | packages/hub/src/agent_hub/store.py:739-804 | in place, its transition: stale instances and lost agents declined, stamps raised, lease renewed within the cap |
| `Store.HubStore.ReleaseAgent` | packages/hub/src/agent_hub/store.py:820-833 | in place, its transition, and whom it wakes |
| `Store.HubStore.AssignTask` | packages/hub/src/agent_hub/store.py:843-959 | in place, its transition: idempotent by source event, only to idle agents, lease bounded by the policy |
| `Store.HubStore.ClaimAssignment` | packages/hub/src/agent_hub/store.py:1642-1654 | in place, its transition: oldest submitted task of the agent, or its release |
| `Store.HubStore.RecordProgress` | packages/hub/src/agent_hub/store.py:989-1052 | in place, its transition: replay before any check of task or agent |
| `Store.HubStore.OpenQuestion` | packages/hub/src/agent_hub/store.py:1054-1099 | in place, its transition: a known message id resumes the question |
| `Store.HubStore.AskedQuestion` | packages/hub/src/agent_hub/store.py:1101-1121 | the loop finds the oldest question of the task sent under the id, if any |
| `Store.HubStore.ReplyTo` | packages/hub/src/agent_hub/store.py:1123-1177 | in place, its transition: declined unless the newest question awaits it |
| `Store.HubStore.NewestQuestion` | packages/hub/src/agent_hub/store.py:1138-1146 | the loop finds the last question of the task |
| `Store.HubStore.SubmitResult` | packages/hub/src/agent_hub/store.py:1214-1373 | in place, its transition: replay first, then one message, one ending, one event, one operation row |
| `Store.HubStore.SetTaskState` | packages/hub/src/agent_hub/store.py:527-546 | in place, its transition: the override message, the ending and the wakeup |
| `Store.HubStore.CancelTask` | packages/hub/src/agent_hub/store.py:1375-1391 | in place, its transition |
| `Store.HubStore.LeaseNextEvent` | packages/hub/src/agent_hub/store.py:1535-1571 | in place, its transition: the oldest queued or expired event under a new delivery id |
| `Store.HubStore.AckEvent` | packages/hub/src/agent_hub/store.py:1495-1533 | in place, its transition |
| `Store.HubStore.Sweep` | packages/hub/src/agent_hub/store.py:1686-1708 | in place, its transition: leases first, then silence, one wakeup if anything was queued |
| `Store.HubStore.ExpireLeases` | packages/hub/src/agent_hub/store.py:1710-1737 | the loop reports each overdue task once and drops its lease |
| `Store.HubStore.LoseAgents` | packages/hub/src/agent_hub/store.py:1739-1779 | the loop loses each silent agent by the row read before the pass |
| `Protocol.Fenced` | packages/hub/src/agent_hub/protocol.py:823-849 | while an agent is live, a message in its name from another instance changes no row and wakes nobody |
| `Protocol.StaleInstancesAreUnheard` | packages/hub/src/agent_hub/protocol.py:480-519 | as long as an instance lives, the hub's history is the same as if no message of another instance had ever arrived, however late |
| `Protocol.InstanceChangesByCheckIn` | packages/hub/src/agent_hub/store.py:636-644 | an agent's instance changes only by its own check-in, and only while it is not live |
| `Protocol.AdmittedIff` | packages/hub/src/agent_hub/protocol.py:823-849 | a worker's write on a task reaches the store if and only if it comes from the task's assignee, by name or context, under its current instance, while it is not lost, and names an operation; and then as that very call |
| `Signals.Signals.Subscribe` | packages/hub/src/agent_hub/signals.py:63-75 | adds one fresh, unflagged waiter under its key and touches no other key |
| `Signals.Signals.Unsubscribe` | packages/hub/src/agent_hub/signals.py:76-82 | removes that waiter, and the key with its last one |
| `Signals.Signals.Notify` | packages/hub/src/agent_hub/signals.py:84-90 | flags, or schedules on its home loop, every waiter registered under the key at the snapshot and nobody else |
| `Signals.Waiter.Wake` | packages/hub/src/agent_hub/signals.py:34-53 | sets the flag on the home loop, schedules it from any other, drops it on a closed one |
| `Wakeups.NoLostWakeup` | packages/hub/src/agent_hub/store.py:1587-1626 | under any interleaving, with a clock set either way and a timer that only advances: a request asleep with no wakeup on its way would find nothing, or an expired delivery, and then its timeout fires within 10 ms or within what the clock has gained on the timer since the request read it |
| `Wakeups.NextKeeps` | packages/hub/src/agent_hub/signals.py:84-90 | each fine-grained step of writers, waiters, loops and clock keeps: past its poll, a request's wakeup is coming or there is nothing for it |
| `Wakeups.WritesNotify` | packages/hub/src/agent_hub/store.py:686-708 | whatever a transaction makes available to a held request, it notifies that request's key |
| `Wakeups.NewEventsNotify` | packages/hub/src/agent_hub/store.py:1686-1708 | every transaction that queues an event notifies the event key |
| `Wakeups.ReadSettles` | packages/hub/src/agent_hub/store.py:1587-1626 | the timeout taken after an empty poll covers every delivery that is out |
| `Wakeups.EndingAnswersIff` | packages/hub/src/agent_hub/store.py:1375-1391 | of all endings of an unanswered task only an override gives a held question something to find; a cancel wakes it for nothing, a result or a loss does not wake it |
| `Wakeups.EndedStaysSilent` | packages/hub/src/agent_hub/store.py:1179-1188 | what a held question did not find when its task ended it finds in no later state, so it is held to its deadline |
| `Wakeups.PollKeeps` | packages/hub/src/agent_hub/store.py:1610-1626 | a poll that takes something keeps all other requests' wakeups coming |
| `Wakeups.EarliestExpiry` | packages/hub/src/agent_hub/store.py:1587-1597 | the least expiry among the deliveries still out, and none exactly if no delivery with an expiry is out |
| `Wakeups.StepFor` | packages/hub/src/agent_hub/store.py:1614-1624 | a request sleeps no longer than it has left, nor past a delivery's expiry by the clock it read, except for the 10 ms floor, and no shorter than one of these asks |
| `Wakeups.SleepsToDeadline` | packages/hub/src/agent_hub/store.py:1599-1626 | in every reachable world a sleeper's timeout fires no later than its deadline, but for the time it took to fall asleep after gauging what was left; for an assignment or a reply exactly then |
| `Wakeups.LeavesIff` | packages/hub/src/agent_hub/store.py:1599-1626 | a request stops being held exactly when its poll finds something, which it then takes, or when it comes up empty with its deadline past |
| `Wakeups.RousesIff` | packages/hub/src/agent_hub/signals.py:84-90 | a sleeper goes round again exactly when its flag is set or its timeout has come |
| `Wakeups.FlagMeansWoken` | packages/hub/src/agent_hub/signals.py:78-90 | in every run a request whose flag is set was woken since it last went round, so a wakeup costs at most one empty poll |
| `Wiring.Notify` | packages/hub/src/agent_hub/signals.py:84-90 | one notify on the registry is one snapshot step followed by one waking step per registered request, and the flags on both sides agree after it |
| `Wiring.RunScheduled` | packages/hub/src/agent_hub/signals.py:49-53 | the home loop running what was scheduled on a waiter is one step |
| `Wiring.Subscribe` | packages/hub/src/agent_hub/signals.py:63-75 | subscribing is the step in which a request comes to be held, on a waiter of its own |
| `Wiring.Unsubscribe` | packages/hub/src/agent_hub/signals.py:76-82 | unsubscribing takes exactly that request out |
| `Client.WorkerHubClient.BeginCheckIn` | packages/worker_mcp/src/worker_mcp/client.py:481-520 | under the id the caller gives, else under the pending id if the profile is the same, else under a fresh one |
| `Client.WorkerHubClient.EndCheckIn` | packages/worker_mcp/src/worker_mcp/client.py:521-531 | a registration settles the call as the client automaton does |
| `Client.WorkerHubClient.BeginProgress` | packages/worker_mcp/src/worker_mcp/client.py:605-636 | under the id the caller gives, else the pending id of the same note on the task, else a fresh one; without a context nothing goes out |
| `Client.WorkerHubClient.EndProgress` | packages/worker_mcp/src/worker_mcp/client.py:637-640 | success forgets the pending id of that task only |
| `Client.WorkerHubClient.BeginResult` | packages/worker_mcp/src/worker_mcp/client.py:732-810 | under the id the caller gives, else the pending id of the same result on the task, else a fresh one; the task's pending question is dropped |
| `Client.WorkerHubClient.EndResult` | packages/worker_mcp/src/worker_mcp/client.py:811-821 | success keeps the pending result id and clears the current task |
| `Client.WorkerHubClient.BeginAsk` | packages/worker_mcp/src/worker_mcp/client.py:642-682 | the same question on a task goes out under its pending message id |
| `Client.WorkerHubClient.EndAsk` | packages/worker_mcp/src/worker_mcp/client.py:683-730 | a timeout keeps the question under the id to retry, a reply or an ending forgets it |
| `Client.WorkerHubClient.RequestWithRetry` | packages/worker_mcp/src/worker_mcp/client.py:193-266 | one request goes out between once and 1 + max_retries times, stops at the first outcome that is not retryable, and gives up only after the last retry |
| `Client.KeepsAsking` | packages/worker_mcp/src/worker_mcp/client.py:642-730 | whatever else the client does until the question is settled, asking it again sends the same request |
| `Client.AskGoesOn` | packages/worker_mcp/src/worker_mcp/client.py:642-730 | after an answer or an ending the same question is a new one; after a timeout it goes out under the id the hub named, or under its own |
| `Client.KeepsPending` | packages/worker_mcp/src/worker_mcp/client.py:783-821 | whatever else the client does until a check-in, note or result is settled, making it again sends the same thing under the same id |
| `Client.BeginRemembers` | packages/worker_mcp/src/worker_mcp/client.py:614-624 | a call under the client's own id is kept under that id, which is new if and only if none was kept for exactly that call; the request says who asks what |
| `Client.GivenGoesOut` | packages/worker_mcp/src/worker_mcp/client.py:783-791 | an id the caller supplies goes out as it is and leaves what the client keeps alone |
| `Client.SuccessForgets` | packages/worker_mcp/src/worker_mcp/client.py:625-640 | success forgets the pending id of a check-in or a note, and of a note when its task's result went through; a result keeps its id |
| `Client.ResultDropsQuestion` | packages/worker_mcp/src/worker_mcp/client.py:783-800 | starting to submit a task's result forgets its question, so asking it again is a new one; no other call does |
| `Client.CurrentIs` | packages/worker_mcp/src/worker_mcp/client.py:119-160 | heartbeats name the last task assigned, until a result went through, a question's task was found ended, or the worker checked in anew |
| `Client.WorkerHubClient.EndAwait` | packages/worker_mcp/src/worker_mcp/client.py:593-593 | an assignment received becomes the current task |
| `ExactlyOnce.AtMostOnce` | packages/worker_mcp/src/worker_mcp/client.py:193-266 | whatever the network loses, repeats or delays and whatever ids callers supply, no operation id is carried out twice |
| `ExactlyOnce.ReturnedExactlyOnce` | packages/worker_mcp/src/worker_mcp/client.py:783-821 | a check-in, report_progress or submit_result that returned was carried out exactly once, and what is on record under its id is what it asked |
| `ExactlyOnce.CalledAgain` | packages/worker_mcp/src/worker_mcp/client.py:489-496 | in any run, a check-in, note or result made again before it settled, the id the client's own, goes out under the id it had, and the two have at most one effect between them |
| `ExactlyOnce.OnePayloadPerId` | packages/worker_mcp/src/worker_mcp/client.py:489-496 | unless a caller reused an id for something else, any two requests ever on the wire under one id of one actor ask for the same thing |
| `ExactlyOnce.ConflictUnreachable` | packages/hub/src/agent_hub/store.py:1002-1014 | unless a caller reused an id for something else, no request a client ever sent can provoke the hub's payload conflict |
| `ExactlyOnce.ConflictIff` | packages/hub/src/agent_hub/store.py:585-597 | a request ever sent is refused as a changed payload if and only if it passes the guards, its result is within bounds, and its id is on record with another payload |
| `ExactlyOnce.ClashMeansTwoUses` | packages/worker_mcp/src/worker_mcp/client.py:489-496 | in any run ids clash if and only if two calls went out under one id of one actor and asked for different things |
| `ExactlyOnce.ClashIff` | packages/worker_mcp/src/worker_mcp/client.py:489-496 | an id comes to be used for two things if and only if a caller supplies one its client already used for another |
| `ExactlyOnce.MintedNeverClash` | packages/worker_mcp/src/worker_mcp/client.py:614-624 | in any run in which the clients mint all their ids themselves, none is ever used for two things |
| `ExactlyOnce.ConflictReachable` | packages/hub/src/agent_hub/store.py:585-597 | a caller that supplies one id for two profiles has its second check-in refused as a changed payload |
| `ExactlyOnce.EffectsAreEvents` | packages/hub/src/agent_hub/store.py:1001-1052 | over every run the check-in, progress and result events number exactly the operations carried out |
| `ExactlyOnce.NextKeeps` | packages/worker_mcp/src/worker_mcp/client.py:614-640 | every step of clients, network and hub keeps ids, payloads, records and effects in line |
| `ExactlyOnce.BeginOk` | packages/worker_mcp/src/worker_mcp/client.py:783-810 | a request begins under an id used for exactly it, unless a caller gave one used before for something else |
| `ExactlyOnce.OneEventEach` | packages/hub/src/agent_hub/store.py:1312-1373 | carrying an operation out queues exactly one event; a replay or refusal changes nothing |
| `ExactlyOnce.OperationsAfter` | packages/hub/src/agent_hub/store.py:1199-1212 | an operation row is written exactly when an operation succeeds for the first time |
| `Intervals.Union` | scripts/hub-report.py:172-179 | sorted, strictly separated, non-empty intervals covering exactly the ticks of the input |
| `Intervals.Merge` | scripts/hub-report.py:172-179 | one pass over sorted intervals merges all that touch |
| `Intervals.Clip` | scripts/hub-report.py:182-183 | exactly the ticks of the input inside the window |
| `Intervals.Subtract` | scripts/hub-report.py:186-202 | exactly the ticks of the first list outside the second, in any order |
| `AgentTime.SpanCountsTicks` | scripts/hub-report.py:205-206 | the span of a separated list is the number of ticks it covers |
| `AgentTime.SpanIsCanonical` | scripts/hub-report.py:205-206 | two separated lists over the same ticks have the same span |
| `AgentTime.ActiveWindows` | scripts/hub-report.py:490-498 | for a worker, exactly the ticks on which one of its tasks was picked up and not finished |
| `AgentTime.WaitingHolds` | scripts/hub-report.py:517-521 | exactly the ticks inside a blocking call that came back empty |
| `AgentTime.IdleIsTheRest` | scripts/hub-report.py:529-539 | turn, waiting and idle ticks partition the agent's window; Alice has no idle tick |
| `AgentTime.TimeFigures` | scripts/hub-report.py:490-539 | the figures are those tick counts, they add up to the total, Alice's idle is zero, and the clamp on idle never takes effect |
| `AgentTime.FirstSeenIs` | scripts/hub-report.py:500-508 | a worker's window opens at its first check-in, or for want of one, like Alice's, at its first call |
| `AgentTime.LastSeenIs` | scripts/hub-report.py:509-515 | it closes at the release, or at the last trace, or now while the agent is connected, whichever applies |
| `Driver.ScenarioDriver.Campaign` | scripts/step6.py:767-967 | over any number of starts, crashes and interference by others: at most one head disturbance pushed, one base pull request, one merge; finishing means both are recorded as the remote holds them |
| `Driver.ScenarioDriver.Drive` | scripts/step6.py:1980-1996 | from wherever crashes alone have led, two calm passes finish if and only if the clone was left clean; from a dirty clone no passes ever do; a pass that does not ask to be called again is the last |
| `Driver.ScenarioDriver.DriverOnce` | scripts/step6.py:767-967 | keeps the invariant through a crash at any write, returns done only with everything recorded, leaves a clean clone dirty only by dying between staging and committing, stops without effect on a dirty one; nothing is done before its gate allows it; a calm first pass adds exactly one canary to the head, a calm second moves main to exactly the recorded merge and nothing else |
| `Driver.ScenarioDriver.DisturbHead` | scripts/step6.py:803-849 | recovers its own push after a crash or makes it, never a second one |
| `Driver.ScenarioDriver.PushCanary` | scripts/step6.py:823-842 | commits and pushes on the old head only, once approved, with the intended commit checkpointed before the push |
| `Driver.ScenarioDriver.DisturbBase` | scripts/step6.py:854-967 | resumes the base disturbance from whichever of branch, pull request and merge already happened |
| `Driver.ScenarioDriver.Finish` | scripts/step6.py:884-967 | from whatever there is of branch and pull request to the recorded merge, leaving the work branch alone |
| `Driver.ScenarioDriver.EnsureBranch` | scripts/step6.py:886-914 | takes the remote branch if and only if it is the intended fixture commit, makes it if there is none, and stops otherwise |
| `Driver.ScenarioDriver.EnsurePr` | scripts/step6.py:915-944 | creates the pull request once and otherwise adopts the existing one |
| `Driver.ScenarioDriver.Merge` | scripts/step6.py:945-967 | merges only the recorded pull request at the recorded head, only with its checks green, and records the merge commit; says exactly when it is to be called again |
| `Driver.Untouched` | scripts/step6.py:767-783 | a scenario that has just begun satisfies the invariant and is one calm passes finish from |
| `Driver.Stranded` | scripts/step6.py:779-781 | from the start, dying between staging the canary and committing it leaves a clone from which no later start finishes |
| `Driver.NeverTwice` | scripts/step6.py:808-842 | if the branch head is the old head, the driver has pushed nothing |
| `Driver.OnlyMine` | scripts/step6.py:808-821 | a canary commit on the old head at the branch's head is the driver's own if it pushed one |
| `Driver.DisturbAllKeeps` | scripts/step6.py:767-967 | no move of others breaks the invariant or the driver's records |
| `Driver.PushHeadKeeps` | scripts/step6.py:836-842 | a push that goes through keeps the invariant and is the driver's first |
| `Driver.RecordedForGood` | scripts/step6.py:864-883 | what is recorded is never taken back |
| `Rebuild.Connection.RebuildDriftedTables` | packages/hub/src/agent_hub/database.py:459-508 | succeeds exactly when no statement, constraint, index or foreign key fails; otherwise the database is the original |
| `Rebuild.Connection.RebuildAll` | packages/hub/src/agent_hub/database.py:511-527 | the loop rebuilds exactly the drifted tables and says whether there were any |
| `Rebuild.Connection.RebuildTable` | packages/hub/src/agent_hub/database.py:530-551 | rename, create, copy, drop and restore come to one table in its declared shape, unless a statement fails |
| `Rebuild.CommittedRebuild` | packages/hub/src/agent_hub/database.py:459-551 | declared shapes, the declared indexes beside those of untouched tables, the same rows on shared columns, the same next ids, other tables untouched, and nothing left for a second run |
| `Rebuild.Converges` | packages/hub/src/agent_hub/database.py:511-551 | the same for any list of tables and any prior shapes |
| `Rebuild.IndexesKept` | packages/hub/src/agent_hub/database.py:511-551 | exactly the indexes of tables that were rebuilt are gone, until the declared ones are made |
| `Rebuild.RebuiltCarries` | packages/hub/src/agent_hub/database.py:530-551 | one rebuilt table has the same rows in the same order on shared columns and the same next id |
| `Rebuild.CopyComes` | packages/hub/src/agent_hub/database.py:536-550 | the statements before the restore, one after the other, leave the copy and nothing of the scratch table |
| `Rebuild.RestoreMatters` | packages/hub/src/agent_hub/database.py:568-591 | without the restore an id would be reused if and only if the mark was past the last row |
| `Rebuild.SecondPassIsIdle` | packages/hub/src/agent_hub/database.py:520-526 | a pass over tables in their declared shape changes nothing |

## Left out

- JSON, pydantic and hashing: a payload hash is taken to be injective, so the operation table stores the payload itself.
- Size caps: `Text.fits` and `Profile.fits` say whether a body is within its cap; sizes are not computed.
- Timestamps: integers of milliseconds instead of UTC text at millisecond precision; ordering is the same.
- The role policy and the flags of a workflow policy are opaque; ill-typed or unknown fields are one bit.
- Columns that are only written (`updated`, `ts`, `delivered_at`, `acked_at`, `created` of operations) and read-only queries (`get_state`, `task_history`, `pending_events`).
- `append_event`, `record_operation` and the cap override of `heartbeat`: the protocol never calls them.
- Worker calls without an operation id: the protocol requires one, so the store methods take it as given. Results in their untyped forms, which the protocol does not send.
- Agents with an empty instance id from old schemas: instances are non-empty.
- The order of SQL rows where no `ORDER BY` fixes it (silent agents, overdue tasks): insertion order.
- uuid freshness: delivery ids come from the length of the lease log, client ids from a ledger of those used.
- Held NEXT streams check their instance only when they open; the fencing claims are about messages, and a claim made by an old stream is covered by `Holder.ClaimIsCurrent` only.
- Questions in `ExactlyOnce`: they carry a message id instead of an operation id, so they are covered by `Client.KeepsAsking` and `HubRuns.QuestionAskedOnce`, and appear there as calls of others.
- Waiters on event loops that close: `Signals.Waiter.Wake` drops their wakeup as the source does, and `Wakeups` has no closing loop.
- The guards of a message and the store call behind it are one step. In the source they are two transactions with no await between them in one event loop.
- The worker client keeps a submitted result by reference, so a caller that changes the same dictionary and submits it again sends a second payload under the pending id. Results are values here.
- HTTP, SSE framing, MCP, bearer tokens, process supervision, call logging.
- The token and byte counts of the report, its rounding to three decimals and its rendering; ticks are integers.
- `Driver`: commits are told apart by id, parent and what their difference to the parent is; a rejected or failed command of any kind ends the run as an exception does. Others may move every branch and close pull requests but not open or merge the base pull request, and the work branch only moves forward while the head disturbance is prepared.
- Transcript auditing, path masking, fixtures and prompts of the scenario scripts; `merge_gate.py`, `accounting.py`, `config.py`, `guides.py`, `models.py`.
- The `ALTER TABLE` steps before the rebuild, which commit on their own. `Rebuild` takes constraints, unique indexes, foreign keys and engine failures as arbitrary predicates and checks the foreign keys over the whole database.
- `Rebuild.CommittedRebuild`: the next id is claimed for tables whose old and new shapes both have an `id` column or both lack one.
