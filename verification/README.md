# dc4bc ceremony model

dc4bc lets N participants create a distributed BLS key and sign with it. Every participant runs a hot
node that reads one append-only log and drives three chained state machines per round (signature
proposal, DKG, signing), and an airgapped machine that answers the operations its node emits. This
project models the hot side in Dafny: the table-driven engine and its pool, the callbacks of the three
machines, the step a node takes for one message, the polling loop, the log file, the operation pool,
and the structures around them; and it proves what whole runs of one node, and of several nodes
reading the same log, satisfy.

## How it is built

The model has two layers that are proved to agree.

* The specification layer gives the machines on values. `Names` has states, events and the names the
  node compares; `Payloads` the dumped payload and the requests; `ProposalActions`, `DkgActions` and
  `SigningActions` the callbacks; `Ceremony` the union of the three tables with the engine's rules;
  `NodeStep.Step` one call of `processMessage`. The theorems are about this layer.
* The imperative layer follows the code: `TableBuilder` and `Pool` fill their maps in loops, `Machines`
  and `Instances` are objects with a current state and a shared payload object, `ProposalCallbacks`,
  `DkgCallbacks` and `SigningCallbacks` update that payload in place and iterate over quorum maps in an
  order they do not choose, `NodeService.Node` keeps the store of dumps, `Delivery` has the log file and
  `Polling` the client that reads it, reinitialisations included. Each method is proved against the
  specification: in the end `NodeService.Node.ProcessMessage` changes the store exactly as `Step` says,
  although it reloads the dump through the pool and hands it from machine to machine.

The theorems, by file: `RoundInvariant`, `Moves`, `Reactions`, `Preservation`, `Steps` and `Runs` build the
invariant of reachable rounds; `History`, `Provenance` and `Admission` say which messages a round accepts,
where they lead, and that a round holds exactly what they say; `Safety`, `Progress`, `Operations` and `Replay`
use the invariant over whole runs; `NoReturn` shows that a round never comes back to a dump it left;
`ClientRounds`, `ClientAgreement` and `Emissions` carry all this to the client, where reinitialisations come
in; `Confluence` treats the order of answers; `Threshold` a signing batch of the machine and `NodeThreshold`
one at a node; `Mailbox` and `Agreement` two nodes on one log; `HonestRun`, `HonestSystem`,
`HonestTermination`, `HonestRecord` and `Airgapped` a ceremony of honest nodes in every interleaving;
`Reachable`, `OrderExample`, `SigningExamples`, `ReinitExamples` and `AdaptationExample` the runs that show
where an expected property fails; `Tables`, `TableFacts`, `Engine` and `EngineFacts` the tables and the
engine; `ExactlyOnce` delivery; `OperationPool`, `ResponseStore`, `Numbering`, `Adaptation` and
`AdaptedReplay` the supporting structures. `Collections` has what several of them need about sets.

Inputs that come from outside are parameters: the node's clock reading, message identifiers, threshold
recovery, the expansion of signing tasks, and the decoding of keys. A message's data is the request its
bytes decode to, and its signature is the set of public keys under which it verifies.

## What the code does that its reader may not expect

* A participant's answer to the proposal is checked against the deadline before its status, so a late repeated
  answer cancels a proposal.
* No signing action writes the signing payload's `UpdatedAt` (the proposal payload's is written instead), so
  the signing deadline never fires; `Safety.NeverCrashes` includes that no round is ever saved as timed out in
  signing. A partial-sign request's batch id is not compared with the running batch; what is proved is that
  only signatures stored since the batch started are collected.
* Commits, deals and responses answer an error in their stage with an event that no table declares. It is
  never fired, because an awaiting state never holds an error of its own stage.
* The order of master-key confirmations matters to the stored data, not to the verdict: after a mismatch is
  seen, later keys are refused. `Confluence.OrderMattersExactly` gives the exact condition and
  `OrderExample.OrderCanMatter` a run of three participants that shows it.
* As far as the machines are stepped, a message accepted once can change a saved round once more in one case:
  when the round is in the failed-signing state, any verified message restarts it. `Replay.ReplayIsHarmless`
  states the exception and `SigningExamples.ReplayRestarts` a run in which it happens.
* Proposal messages are not verified, because the keys are not known yet. A second proposal for a round is
  refused, but it still restarts a failed signing. By `Safety.OnlySignedMessages` the step of an unsigned
  message changes a proposed round in that case and in no other; `SigningExamples.UnsignedRestart` is a run.
* When recovery fails on the t-th partial signature, the node keeps the dump it had, so that signature is
  lost. If a signature that recovery refuses is among the first t-1, every later one is lost as well, and,
  since signing does not expire, the batch waits for ever unless enough failures are reported:
  `NodeThreshold.StuckBatch`, `NodeThreshold.BadSignatureSticks`, and the run `SigningExamples.StuckRun`.
* In the replay of an adapted log a node leaves the deal stage on its last deal. A response that stands before
  that deal is refused and lost (`AdaptedReplay.EarlyAnswerIsLost`).
* The adaptation adds one self-confirmation per sender for the whole list, not one per round. A participant
  that already dealt in an earlier round of the list gets none in the later one, and its node's replay never
  gets past the deals: `AdaptedReplay.ReplayPassesDeals` has the exact condition, and
  `AdaptationExample.EarlierDealBlocks` a log.
* A reinitialisation is not a step: its own signature is not checked, and every message of the old log it
  carries is handled without a check, whatever round it names. So an unsigned message can give an answer in a
  round; `ClientRounds.UnsignedAtClient` has the exact condition and `ReinitExamples.AnswerForged` a run.
* A reinitialisation is refused when the round its data names exists, but it saves that round, with the new
  keys, under the name in its message, whatever is there. A cancelled round can so become another round's
  dump; no message changes it otherwise (`ClientRounds.CancelledHandled`), and `ReinitExamples.CancelledRevived` is
  a run that takes one to signing. The counts and the harmlessness of repeated messages hold for rounds that
  are not replaced in this way.
* A processed operation writes its public polynomial into any round that can be loaded and has a DKG, one that
  an error cancelled included (`OperationPool.Worker.ExecuteOperation`).
* Messages behind the reading position that are ignored do not advance it; they are read again by every poll,
  to no effect.
* In the pool, the branch for a source state that is also final cannot be taken, because a state that is left
  is not final; the model omits it. The check of the quorum length after a proposal cannot fail either, and is
  omitted.

## Model

| member | source | states |
|---|---|---|
| Names.ErrorNames | client/services/node/node_service.go:699-701 | The suffix test on dumped state names selects exactly the states cancelled by an error. |
| Names.TimeoutNames | client/services/node/node_service.go:734-734 | The suffix test selects exactly the timed-out states. |
| Names.TimeoutPrefixes | client/services/node/node_service.go:735-742 | Among timed-out states the two prefix tests separate signing from everything that is over, although one prefix begins like the other. |
| RoundState.OrderedIds | fsm/state_machines/internal/types.go:134-150 | Collecting map keys in any order and sorting them gives the one ascending list of the ids. |
| RoundState.ValidateProposal | fsm/types/requests/signature_proposal_validation.go:10-57 | Accepts exactly proposals with at least two participants, a threshold from 2 to N, unique names, long enough keys and a creation time. |
| RoundState.ValidateRequest | fsm/types/requests/signing_proposal_validation.go:18-80 | The validation loops accept exactly the valid requests of each type. |
| RoundState.ValidMeans | fsm/types/requests/signature_proposal_validation.go:10-57 | What validity asks, in numbers: at least two participants, a threshold from 2 to N, different names of 3 to 150 characters, keys of at least 10 bytes; a participant, a time, and the content, error, tasks or signatures a request needs. |
| ProposalCallbacks.Init | fsm/state_machines/signature_proposal_fsm/actions.go:16-79 | The loop that numbers participants leaves the specified quorum, name maps, threshold and ordered invitations, or refuses and changes nothing. |
| ProposalCallbacks.Respond | fsm/state_machines/signature_proposal_fsm/actions.go:82-134 | A reply is stored, refused, or cancels the proposal when late, as specified. |
| ProposalCallbacks.Tally | fsm/state_machines/signature_proposal_fsm/actions.go:151-168 | The count of unconfirmed participants is zero exactly when all agreed, and the flag is set exactly when one declined. |
| ProposalCallbacks.Validate | fsm/state_machines/signature_proposal_fsm/actions.go:136-181 | The validation chooses timeout, decline, wait or validated as specified, in any iteration order. |
| DkgCallbacks.Init | fsm/state_machines/dkg_proposal_fsm/actions.go:17-70 | The DKG quorum built from the proposal quorum in any order, with the ordered key list. |
| DkgCallbacks.Receive | fsm/state_machines/dkg_proposal_fsm/actions.go:73-115 | An answer to a stage is stored for an awaited participant, or refused without change. |
| DkgCallbacks.Tally | fsm/state_machines/dkg_proposal_fsm/actions.go:441-450 | Zero unconfirmed exactly when all confirmed, the error flag exactly when one reported, and the collected answers are exactly the confirmed ones. |
| DkgCallbacks.MismatchIsKeysDiffer | fsm/state_machines/dkg_proposal_fsm/actions.go:457-471 | Comparing all keys with the first one met finds a mismatch exactly when two confirmed keys differ, whatever the iteration order. |
| DkgCallbacks.Validate | fsm/state_machines/dkg_proposal_fsm/actions.go:426-483 | The validation of each stage decides, restatuses the quorum and lists the answers as specified. |
| DkgCallbacks.ConfirmationError | fsm/state_machines/dkg_proposal_fsm/actions.go:486-593 | A reported error is stored for an awaited participant, or refused without change. |
| SigningCallbacks.Start | fsm/state_machines/signing_proposal_fsm/actions.go:44-103 | A batch starts with a fresh quorum of the DKG participants and the ordered invitations. |
| SigningCallbacks.Receive | fsm/state_machines/signing_proposal_fsm/actions.go:105-147 | Partial signatures are stored one by one for a participant that has not answered. |
| SigningCallbacks.Tally | fsm/state_machines/signing_proposal_fsm/actions.go:158-166 | The two counters are the numbers of failed and of not yet confirmed participants. |
| SigningCallbacks.Validate | fsm/state_machines/signing_proposal_fsm/actions.go:149-207 | The threshold decision and the collected list, as specified. |
| SigningCallbacks.ConfirmationError | fsm/state_machines/signing_proposal_fsm/actions.go:214-272 | A signing failure is stored for a participant that has not answered, or refused without change. |
| TableBuilder.MustNew | fsm/fsm/fsm.go:110-251 | The builder accepts exactly the well-formed lists of events, and then transitions, automatic events, entry event and final states are those of the list. |
| TableFacts.TablesAreAccepted | fsm/state_machines/dkg_proposal_fsm/init.go:85-168 | Each of the three tables is well-formed, so building a machine never panics. |
| TableFacts.TablesAreTheUnion | fsm/state_machines/signing_proposal_fsm/init.go:48-82 | Each table declares exactly the union table's edges of its own events. |
| TableFacts.AutosAreTheUnion | fsm/fsm/fsm.go:190-207 | The only automatic events run after a transition, one for each awaiting state. |
| TableFacts.SourcesAreDisjoint | fsm/fsm_pool/fsm_pool.go:106-127 | Each state is a source of at most one table, and the states that are a source of none are exactly those that cannot be resumed. |
| EngineFacts.MachinesAreTheUnion | fsm/fsm/fsm.go:274-370 | From a state it owns, a machine run by the engine on its own table behaves exactly as the union of the three. |
| Machines.Machine.WithSetup | fsm/fsm/fsm.go:254-272 | A machine can be set to exactly the states it owns. |
| Machines.Machine.SetState | fsm/fsm/fsm.go:381-393 | Moves along the declared edge or fails and stays. |
| Machines.Machine.ProcessAutoEvent | fsm/fsm/fsm.go:287-309 | Runs the automatic event of the current state, redirections included, or does nothing when there is none. |
| Machines.Machine.Do | fsm/fsm/fsm.go:274-370 | Routing, the automatic event before, the callback, the move and the automatic event after leave state, payload and response as specified; an event that is not routed changes nothing. |
| Pool.Init | fsm/fsm_pool/fsm_pool.go:50-133 | Accepts exactly machines with distinct names, disjoint outside events and sources and one entry, and then knows each by name, event and state. |
| Pool.FindsOwner | fsm/fsm_pool/fsm_pool.go:157-165 | A state is resolved to the machine that leaves it, and to none when no machine does. |
| Instances.ThreeFit | fsm/state_machines/provider.go:50-54 | The three machines can share a pool. |
| Instances.PoolFinds | fsm/state_machines/provider.go:85-90 | The pool of the three machines resolves a state to its owner and no other state. |
| Instances.Create | fsm/state_machines/provider.go:39-60 | A round id that is not blank gets an idle instance on the entry machine. |
| Instances.FromDump | fsm/state_machines/provider.go:63-94 | A dump can be reloaded exactly when its state is a source state, and the instance then stands at that dump. |
| Instances.Instance.Do | fsm/state_machines/provider.go:112-132 | An event on a reloaded instance does what the union does to state and payload. |
| NodeService.Node.GetInstance | client/services/fsmservice/fsmservice.go:102-129 | Loads the saved round or creates and saves an idle one; fails for a state that cannot be resumed or a blank id. |
| NodeService.Node.Resume | client/services/node/node_service.go:697-758 | Failed ceremonies are left alone, failed signings are restarted and saved, all else is untouched. |
| NodeService.Node.HandOn | client/services/node/node_service.go:772-796 | The hand-overs, reloading the dump through the pool each time, are the union's transitions. |
| NodeService.Node.Complete | client/services/node/node_service.go:798-867 | Operation, recovered signatures, restart and save after a successful event. |
| NodeService.Node.ProcessMessage | client/services/node/node_service.go:665-868 | One call changes the store of dumps, returns the operation, posts signatures and fails exactly as the one-machine step says: dumping and reloading is transparent. |
| Runs.RoundRunKeeps | client/services/node/node_service.go:665-868 | Every run of a node over any messages keeps the round invariant: numbered roster, no error in an awaiting stage, on-time answers, consistent thresholds. |
| Provenance.RunRecords | fsm/state_machines/dkg_proposal_fsm/actions.go:73-593 | Over every run a round holds exactly what the messages it accepted say: participants, numbers and keys of the proposal, everybody's reply, each answer to each stage, the public polynomial of the last master key, who is to blame for a cancellation, and the batch with all signatures or the failure of each, with their times. |
| ClientRounds.RecordsAtClient | client/services/node/node_service.go:108-127 | The same at a client over any messages, for rounds that no reinitialisation brings up or replaces. |
| Provenance.RunId | fsm/state_machines/provider.go:39-60 | The id of a round is its name without the spaces around it, and no step changes it. |
| Provenance.TrimIs | fsm/state_machines/provider.go:39-60 | Trimming takes exactly the spaces at both ends. |
| Admission.AcceptedExactly | client/services/node/node_service.go:665-868 | On every round with the invariant a message is accepted if and only if it is signed with the key registered for its sender (or checks are off, or it is a proposal), carries the data its event needs from somebody the state waits for, has tasks that expand, and, when it completes a batch, lets the signatures be recovered. |
| Admission.AcceptedLeads | client/services/node/node_service.go:760-796 | An accepted message takes the round to exactly one state: timeout, decline, clash, report, wait, next stage or hand-over, decided by times, the others' statuses and keys. |
| Runs.RoundsAreIsolated | client/services/fsmservice/fsmservice.go:62-99 | As far as a node steps its machines, a round's dump depends only on the messages that name it. |
| ClientRounds.HandledRound | client/services/node/node_service.go:524-605 | What a client makes of any message, for every round: the round hears the messages that name it, those of a carried old log unchecked; the round a reinitialisation brought up is saved once more, with new keys, under the name in the message. |
| ClientRounds.ClientRoundRuns | client/services/node/node_service.go:108-127 | Over any messages, a round that no reinitialisation brings up or replaces is the run of what it hears, so rounds do not interfere otherwise. |
| NoReturn.NeverReturns | client/services/node/node_service.go:665-868 | A run in which no signing starts ends at the dump with which it began if and only if none of its messages changes that dump. |
| Runs.ReachableInv | client/services/node/node_service.go:665-868 | Every round in the store of a node that started empty satisfies that invariant, whatever messages of whatever rounds it handled. |
| Safety.DkgCompletion | fsm/state_machines/dkg_proposal_fsm/actions.go:426-483 | Any run that reaches signing has ids 0..N-1, 2 <= t <= N, and from each participant a commit, deal, response and master key, one master key for all, no error, and a last answer in time. |
| ClientRounds.CompletionAtClient | client/services/node/node_service.go:108-127 | The same at a client that handled any messages, reinitialisations included, for every round in signing. |
| Safety.AlwaysInTime | fsm/state_machines/internal/types.go:160-162 | In a run that reaches signing, every confirmation a DKG stage took was created before the deadline. |
| Safety.NeverCrashes | fsm/fsm/fsm.go:381-393 | On every reachable round no step dereferences a missing payload or fires an undeclared transition, and no state between two machines is ever saved. |
| ClientRounds.NeverCrashesAtClient | client/services/node/node_service.go:108-127 | The same for every step of a client that handled any messages, reinitialisations included. |
| Safety.CancelledForever | client/services/node/node_service.go:699-745 | A cancelled proposal or DKG is never changed again by a step, whatever messages it hears. |
| ClientRounds.CancelledHandled | client/services/node/node_service.go:524-605 | At a client a cancelled round keeps its dump under every message, except a reinitialisation that names it, whose own round does not exist yet and can be loaded after the replay: then it is exactly that dump with the new keys. |
| ClientRounds.CancelledAtClient | client/services/node/node_service.go:108-127 | Over any messages none of which replaces it, a cancelled round keeps its dump. |
| ReinitExamples.CancelledRevived | client/services/node/node_service.go:530-602 | A run from nothing in which a declined proposal is replaced, by an unsigned reinitialisation, with a round that is ready to sign. |
| Safety.CancelledByReport | client/services/node/node_service.go:699-711 | Every round cancelled by a DKG error has a participant with an error, and no step changes it. |
| Admission.ReportCancels | fsm/state_machines/dkg_proposal_fsm/actions.go:486-593 | A trusted, valid error report of an awaited participant cancels the stage; that participant has the reported error and everybody else is as before. |
| Safety.RecoveredExactly | client/services/node/node_service.go:697-758 | Before it looks at a message a node leaves a round alone that ended in somebody's error or in a timeout, restarts a signing that failed or timed out, and goes on with all others; for every dump, reachable or not. |
| Safety.ExpiredBatchTimesOut | fsm/state_machines/signing_proposal_fsm/actions.go:149-182 | The signing machine times out every batch whose update time is past its deadline, though no run has one. |
| Safety.SigningRestarts | client/services/node/node_service.go:712-733 | Every failed signing has a complete, error-free DKG, and the next message that reaches the machines restarts it. |
| Safety.RejectionKeeps | client/services/node/node_service.go:665-768 | A failing step leaves the saved round unchanged, except for creating an idle one and for the signing restart, emits no operation and posts no signatures. |
| Safety.OnlySignedMessages | client/services/node/node_service.go:671-676 | While signatures are checked, the step of a message not signed with the registered key of its sender changes a proposed round if and only if it is a repeated proposal and the round is a failed signing, which is then restarted. |
| Admission.UnsignedIsRefused | client/services/node/node_service.go:317-331 | In every run with an accepted proposal, a message (other than a proposal) whose sender the proposal does not list, or that is not signed with the key it lists, leaves the round as it is and is refused as unverified, or for want of a machine when the round is over. |
| ClientRounds.UnsignedAtClient | client/services/node/node_service.go:536-570 | At a checking client an unsigned message, or any reinitialisation, changes a proposed round if and only if it is that repeated proposal, or a reinitialisation that is carried out and saves a different dump there or replays a message that would by itself change the round. |
| ReinitExamples.AnswerForged | client/services/node/node_service.go:536-570 | A run from nothing in which an unsigned reinitialisation of another round makes a participant count as having agreed to a proposal. |
| SigningExamples.FailureIsReached | fsm/state_machines/signing_proposal_fsm/actions.go:149-182 | A run of two participants from nothing to a signing cancelled by an error. |
| SigningExamples.UnsignedRestart | client/services/node/node_service.go:671-733 | At the end of that run a proposal that nobody signed restarts the signing. |
| Progress.CeremonyLength | fsm/state_machines/dkg_proposal_fsm/actions.go:73-593 | In a run of steps a ceremony of N participants accepts at most 5N+1 events, and exactly 5N+1 when it reached signing. |
| ClientRounds.LengthAtClient | client/services/node/node_service.go:108-127 | The same at a client over any messages, for every round that is not replaced by another one's dump, rounds brought up by a reinitialisation included. |
| Progress.StepCounted | fsm/state_machines/signature_proposal_fsm/actions.go:16-181 | The number of accepted ceremony events stays equal to the measure of stage and answered participants: an accepted event moves it by exactly one or cancels the round, every other step leaves it. |
| Operations.OneOperationPerEntry | client/services/node/node_service.go:798-819 | A step emits an operation exactly when it enters an awaiting state; it lists all N participants once each in ascending order with exactly the name and the key, answer or invitation the saved payload has for them. |
| Emissions.EmittedExactly | client/services/node/node_service.go:108-127 | Over any log a client hands on, in log order, exactly one operation for each message that brings its round to a waiting state, for that round and state with complete data, exactly one combined operation for each reinitialisation carried out, with the operations of its replay, and nothing else. |
| Replay.ReplayIsHarmless | client/services/node/node_service.go:665-868 | A proposal or DKG message that a step accepted once never changes the saved round by a step again, except that it may restart a failed signing. |
| ClientRounds.ReplayAtClient | client/services/node/node_service.go:108-127 | The same at a client, after any further messages that do not replace the round, whether the message comes again by itself or in an old log. |
| SigningExamples.ReplayRestarts | client/services/node/node_service.go:699-733 | A run in which an approval accepted at the beginning comes again and restarts the failed signing. |
| Confluence.ClosedForm | fsm/state_machines/dkg_proposal_fsm/actions.go:73-483 | Any sequence of on-time confirmations of distinct awaited participants stores each one's own answer and ends the stage exactly with the last awaited. |
| Confluence.OrderDoesNotMatter | fsm/state_machines/dkg_proposal_fsm/actions.go:73-483 | Two orders of the same confirmations, of equal keys in the master-key stage, end in the same state with the same quorum. |
| Confluence.ClashIsSeen | fsm/state_machines/dkg_proposal_fsm/actions.go:457-471 | Clashing master keys cancel the round in every order. |
| Confluence.OrderMattersExactly | fsm/state_machines/dkg_proposal_fsm/actions.go:381-483 | The master-key stage ends with the same quorum in every order if and only if leaving out any one confirmation leaves equal keys. |
| OrderExample.OrderCanMatter | fsm/state_machines/dkg_proposal_fsm/actions.go:381-483 | A run from a proposal by three participants reaches a master-key stage where two orders of the same three on-time answers, with keys 1, 1 and 2, store different quorums. |
| Reachable.StagesAreReached | fsm/state_machines/dkg_proposal_fsm/init.go:85-168 | For every plan of N participants and every stage there is a run from nothing after which that stage is open and nobody has answered it. |
| Threshold.ExactThreshold | fsm/state_machines/signing_proposal_fsm/actions.go:149-182 | In the signing machine a batch is collected exactly on the t-th accepted signature and cancelled exactly on the (N-t+1)-th failure, never both, and never still waiting once all have replied. |
| Threshold.CollectedBatch | fsm/state_machines/signing_proposal_fsm/actions.go:182-207 | Reconstruction gets exactly t participants in ascending order, each with its name and all signatures of its accepted reply to this batch, the last one for a repeated message. |
| NodeThreshold.BatchStep | client/services/node/node_service.go:760-867 | What one message does to a running batch at a node: stored, refused, completing, dropped because recovery failed, or cancelling. |
| NodeThreshold.ExactAtNode | client/services/node/node_service.go:811-860 | From a batch start in any run: the t-th signature ends the batch and posts signatures if and only if recovery succeeds on exactly the t replies kept, with the polynomial of the last accepted master key, the threshold of the proposal and its number of participants; otherwise it is dropped; the (N-t+1)-th failure cancels; nothing else ends it. |
| NodeThreshold.StuckBatch | client/services/node/node_service.go:820-829 | A batch one signature short that recovery refuses whoever adds it is left as it is by any messages but failure reports. |
| NodeThreshold.BadSignatureSticks | client/services/node/node_service.go:886-939 | A stored signature that recovery refuses makes the batch of the first t-1 such a batch. |
| SigningExamples.StuckRun | client/services/node/node_service.go:820-829 | If recovery refuses the first participant's signatures, there is a run in which both participants sign, the second reply is dropped, and the round still waits after any further messages that report no failure. |
| Agreement.BroadcastIsWhole | airgapped/dkg.go:24-31 | A broadcast gives every node the same single message. |
| Agreement.DealsAreWhole | airgapped/dkg.go:192-231 | One sender's deals with its self-confirmation give each node exactly one message, the same up to deal bytes. |
| Agreement.StepMirrors | client/services/node/node_service.go:665-868 | Forgetting deal bytes and clock stamps commutes with a node step. |
| Agreement.ReplicaAgreement | client/services/node/node_service.go:152-168 | Any two nodes that start empty and step through the same log of whole batches, no confirmation being too late for the deadline that node set itself for that round, agree after every batch on everything in every round but deal bytes and the stamps of their own clocks. |
| ClientAgreement.ClientsAgree | client/services/node/node_service.go:108-168 | The same for two clients whose log also holds reinitialisations, broadcast and with old logs that all nodes replay alike. |
| ClientAgreement.WholeReplay | client/services/node/node_service.go:547-570 | An old log of whole batches up to the first signing is replayed alike by all nodes. |
| HonestRun.BroadcastCarries | airgapped/dkg.go:24-31 | Every participant finds exactly its message in a broadcast result. |
| HonestRun.DealsCarry | airgapped/dkg.go:192-231 | Every participant finds exactly its message among the addressed deals, in any order. |
| HonestRun.ViewIsExact | airgapped/dkg.go:217-231 | An orderly log determines a stage before which everybody has posted and after which nobody has. |
| Airgapped.DealBatch | airgapped/dkg.go:154-232 | Whatever the order of the deals and whenever they were created, each participant finds in the batch exactly its own message, the sender its self-confirmation. |
| Airgapped.DealIsProper | airgapped/dkg.go:192-231 | A batch of deals that are not empty is one an honest node may post if and only if it was created within the DKG deadline. |
| HonestSystem.NothingIsRefused | client/services/node/node_service.go:760-796 | When each node posts exactly the results of its operations, approvals within a week of the proposal and answers within a week of the opening of the DKG, in every interleaving whatever a node reads next is accepted. |
| HonestSystem.InboxIs | client/services/node/node_service.go:152-168 | Of the batches in the log a node handles the proposal and then exactly one message for each post. |
| HonestSystem.HonestRunsComplete | client/services/node/node_service.go:773-796 | When then nothing is left to read or execute, every node is ready to sign and the log holds everybody's approval and answers. |
| HonestRecord.HonestRunsRecord | client/services/node/node_service.go:152-168 | At every point of every interleaving each node's round records exactly the messages posted so far as it has read them, and at the end all nodes hold the polynomial of the last master key posted. |
| HonestSystem.NeverStuck | client/services/node/node_service.go:137-168 | Until then some node can read or execute. |
| HonestTermination.HonestRunsTerminate | client/services/node/node_service.go:137-168 | Every interleaving is finite: at most 5N(N+1)+N reads and executions, and exactly that many if and only if the ceremony is complete. |
| HonestTermination.HonestRunsExtend | client/services/node/node_service.go:252-306 | Every partial run extends to a complete one. |
| Delivery.FileStorage.Send | storage/file_storage/fileStorage.go:66-102 | A batch is appended behind the log, each message numbered by its line. |
| Delivery.FileStorage.GetMessages | storage/file_storage/fileStorage.go:105-139 | Exactly the messages from the offset on that are not ignored, in order. |
| Delivery.FileStorage.IgnoreMessages | storage/file_storage/fileStorage.go:145-161 | Adds the listed ids or offsets, and fails exactly on an offset that is no number. |
| ExactlyOnce.AskedToIgnore | storage/file_storage/fileStorage.go:105-161 | A message that somebody asked to ignore, by id or offset, before the node was given it is never given to it. |
| Polling.Client.Poll | client/services/node/node_service.go:137-168 | One turn handles the unread messages that are not ignored and are addressed to the node, each as specified, reinitialisations included, hands on their operations in order and moves the offset behind the last one read. |
| Polling.Client.Replay | client/services/node/node_service.go:547-570 | The replay of a reinitialisation runs the node step, without signature checks, on the messages addressed to the node before the first signing, and collects their operations in order. |
| Polling.Client.SetKeys | client/services/node/node_service.go:586-602 | The round gets the new communication key of every participant, the last one for a repeated name, and is saved under the name in the message. |
| ClientRounds.KeysAreWritten | client/services/node/node_service.go:586-602 | The round a reinitialisation saves is the one it brought up, with the key of the last entry for each listed name and the old keys of all others. |
| Polling.Client.Reinit | client/services/node/node_service.go:524-605 | A round that exists is left alone; otherwise the old log is replayed, one combined operation handed on, the keys overwritten, and signature checking put back as it was. |
| Polling.PlainEffect | client/services/node/node_service.go:108-127 | Without reinitialisations, handling messages is exactly a run of the node step. |
| Polling.HandlingKeeps | client/services/node/node_service.go:108-127 | Whatever messages a client handles, reinitialisations included, every saved round satisfies the invariant of reachable rounds. |
| ExactlyOnce.DeliveredExactlyOnce | client/services/node/node_service.go:137-168 | Over any interleaving of sends, polls and requests to ignore messages, a node was given messages of the log that are for it, each once and in order, and one more poll gives it all of those that nobody asked to ignore. |
| OperationPool.OperationRepo.GetOperations | client/repositories/operation/operation.go:129-157 | The stored operations without tombstone. |
| OperationPool.OperationRepo.PutOperation | client/repositories/operation/operation.go:51-72 | Refused exactly when the id is visible. |
| OperationPool.OperationRepo.DeleteOperation | client/repositories/operation/operation.go:75-112 | Refused exactly when the id has a tombstone; otherwise the id is buried. |
| OperationPool.Worker.ExecuteOperation | client/services/node/node_service.go:252-306 | Posts the results of a matching stored operation, one message for each in order, from this sender and signed with its key and otherwise unchanged, or writes the public polynomial of a processed one into its round, and buries it; or does nothing. |
| OperationPool.ExecutedExactly | client/services/node/node_service.go:252-306 | After any calls an operation is executed if and only if it comes back with a result and the kind and payload of the first one put under its id, not buried; then it is buried, and its results are posted or exactly its polynomial is written into its round. |
| OperationPool.SentPasses | client/services/node/node_service.go:267-279 | What a worker sends passes the signature check of every round that has its key. |
| OperationPool.WithPolyInv | client/services/node/node_service.go:283-299 | Writing a polynomial keeps the invariant of the round, whatever its state. |
| OperationPool.PoolIsExact | client/repositories/operation/operation.go:51-157 | After any calls the pool shows exactly the first operation put under each id that was not buried, deletions and executions are all that buries, and the results of an id are posted at most once. |
| ResponseStore.MessageStore.AddValue | dkg/types.go:91-104 | One value goes under its sender and its index, unless the sender used up its share. |
| ResponseStore.MessageStore.StoreResponses | dkg/dkg.go:196-203 | The responses of a participant are added in order, each under the index it names. |
| ResponseStore.StoreIsConserved | dkg/types.go:69-104 | After any adds both maps hold the same multiset, as large as the counter: of each sender the first values it sent, never more than the maximum, and under each index those of them sent under it, in order. |
| Numbering.ProposalNumbers | fsm/state_machines/signature_proposal_fsm/actions.go:42-76 | The position in the proposal is the quorum key and the id under the participant's name. |
| Operations.AskKeys | fsm/state_machines/dkg_proposal_fsm/actions.go:54-69 | The key list for the airgapped machine has participant i at position i, with its name and key. |
| Numbering.OperationIsNumbered | fsm/state_machines/dkg_proposal_fsm/actions.go:54-69 | In every run, the operation with which a node opens a DKG has every participant at the position of its id, under the number the saved round has for its name, with different names. |
| Numbering.KeyStore.Add | dkg/types.go:24-33 | A key is added unless the same participant has the same key. |
| Numbering.KeyStore.Sort | dkg/dkg.go:116-118 | Sorting by participant id permutes the keys into ascending order. |
| Numbering.KeyStore.IndexOf | dkg/dkg.go:107-114 | The first position of a key, or -1. |
| Numbering.JoinCeremony | airgapped/dkg.go:68-114 | The own id found by scanning the payload equals the own index among the sorted keys, which stand in id order, even when keys repeat. |
| Numbering.JoinRound | airgapped/dkg.go:68-114 | An airgapped machine that joins with that operation gets the index of its own id, and fails exactly when a key cannot be read or its own is missing. |
| Adaptation.Adapt | client/services/node/adapt_dkg.go:47-72 | The originals stay in order, offsets are 0..len-1, each dealing sender gets exactly one self-confirmation, in its own name and for the round and time of the deal, directly before its first deal, and nothing else is added; fails exactly when a first deal cannot be read. |
| AdaptedReplay.FullDealingAdapts | client/services/node/adapt_dkg.go:17-45 | A log in which everybody of a round dealt to every other, among any other messages, can be adapted if and only if the first deals of other rounds can be read. |
| AdaptedReplay.AdaptedReplayCompletes | client/services/node/node_service.go:547-570 | Adapt any such log. If the part of a node's replay before the first deal brings the round to the deal stage and no error report is accepted, the node accepts exactly N messages up to the last deal, one deal per participant, and right after it awaits everybody's response; or, if its own first deal in the log is of another round, exactly the N-1 deals of the others, and it awaits its own. |
| AdaptedReplay.ReplayPassesDeals | client/services/node/adapt_dkg.go:47-72 | Over the whole replay the round gets past its deals if and only if the node's own first deal in the log is of this round. |
| AdaptationExample.EarlierDealBlocks | client/services/node/adapt_dkg.go:52-60 | A log of two rounds with a full dealing in the second, whose replay ends with the first node awaiting its own deal. |
| AdaptedReplay.OthersChangeNothing | client/services/node/node_service.go:547-570 | While a round awaits deals, a message that is neither a deal nor an accepted error report leaves it as it is. |
| AdaptedReplay.EarlyAnswerIsLost | fsm/fsm/fsm.go:274-278 | An answer to another stage that a node meets before its last deal is refused and stored nowhere. |

## Left out

- Cryptography (key generation, verifiable secret sharing, BLS, ed25519, encryption): parameters or abstracted; that a dealer has one deal for each other participant is assumed.
- JSON and dump encoding are the identity; Kafka, HTTP, the CLI, LevelDB and key files are not modelled. Storage and network calls do not fail.
- Name lengths are counted in characters, while the code counts bytes.
- HonestSystem.HonestRunsComplete: stops where signing is ready; signing batches are treated for one node in NodeThreshold.
- Polling.Client.Poll: what a node hands on is a list; that putting it in the operation pool can fail, for instance on a repeated identifier, is not modelled.
- OperationPool.Worker.ExecuteOperation: operation ids and file names are opaque, and the reset of the stored maps on construction is not modelled.
- AdaptedReplay.AdaptedReplayCompletes: the deals of the round are valid answers to it and in time.
- ClientAgreement.ClientsAgree: old logs in which nodes find their deals in different orders are not covered.
- Agreement.ReplicaAgreement: the creation and expiry times that a node takes from its own clock may differ, as may deal bytes.
- The contents of the signature store, and errors in decoding broadcast reconstructed signatures, which change no round.
- State reset and manual setting of the offset, which deliberately leave the reachable states.
- The participant objects of a quorum are values in a map that the methods replace; aliasing of participants and the derived `ParticipantID` field are not modelled, and the status list of a validated proposal is a map without an order.
- `GetPKByIndex`, `GetParticipantByIndex`, the collection of messages for a reinitialisation, and the descriptions and hashes shown to users: easy members.
- Mutexes and the file lock: every step of a node and every send is atomic, as the storage interface promises.
