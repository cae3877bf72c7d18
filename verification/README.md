# AX Sentinel: a verified model

This project models the parts of AX Sentinel whose correctness spans several
functions, crashes or concurrent writers, and proves what they keep. It is plain
Dafny 4.11; `dafny verify dfyconfig.toml` checks everything.

## What is modelled

**The Kafka event worker** (`EventLog`, `KafkaWorker`, `KafkaCalls`, `KafkaSafety`,
`KafkaCommits`, `KafkaFilings`, `KafkaLoss`, `KafkaPolling`, `KafkaPoison`,
`KafkaRetries`, `KafkaReplay`, `KafkaAnonymous`, `DeadLetterIds`). The state holds every
partition's log, position and committed offset, the retry counters, the event store and
the dead-letter topic. A run mixes polling turns with any batches, crashes at any point
followed by a restart from the committed offsets, and new records. For each record the
environment chooses freely: lookups fail, writes are refused or take effect with a lost
reply, other writers store entries, seeks and commits fail. `EventLog` gives each step as a function; `KafkaWorker.KafkaEventWorker`
is the worker itself with its fields and nested loops, each method proved equal to its
step.

The documentation promises at-least-once delivery (docs/msa-kafka-design.md:51),
skipping of replayed events (docs/architecture.md:117-118), and that schema violations
end in the dead-letter topic (docs/msa-kafka-design.md:342, 579). The code keeps these
promises with exact exceptions, and the model follows the code:

- If a dead letter or a seek raises, the turn ends without rewinding. The next commit
  covers the records left behind, valid or not, and the worker never comes back to them
  (`KafkaLoss.StrandedUntilRestart`, `KafkaLoss.LossIsPermanent`,
  `KafkaPoison.OneRefusalLosesAnyMalformedRecord`).
- Some records make their own dead letter fail. An `event_id` that is neither a string
  nor null is copied into `causation_id` and refused there; a value the table cannot
  hold (a number beyond its range, an item too large) is part of the dead-letter entry
  and makes its `put` raise. If nothing in the environment fails, exactly the records
  that can be neither stored nor filed, and whose event is not in the store when they
  are reached, cost records (`KafkaPoison.SafeOnEveryFaultlessRunIffNoneHopeless`). If lookups and event writes
  may fail, every record whose dead letter cannot be filed endangers its neighbours,
  and no other record does (`KafkaPoison.SafeOnEveryBenignRunIffAllFileable`).
- A valid envelope without `event_id` gets a new generated id at every parse, so a
  replay stores it again (`KafkaAnonymous.WrittenOnceIffNotNameless`).

**The versioned repository** (`Repository`, `EventRace`, `IncidentLifecycle`,
`Pagination`). `put` is a read step and a conditional write step; any number of writers
interleave. `EventRace` composes it with the worker's duplicate check,
`IncidentLifecycle` with the status check of a PATCH and with the direct write of a
completed work order. The version is read inside `put`, so a caller's own earlier read
is not protected. `IncidentLifecycle.PatchIsLegalIff` says exactly when the move made
is not in the graph, and `IncidentLifecycle.StatusClimbsIffHarmless` exactly when a
status moves back. An item without the `version` attribute can never be updated, because the condition
compares the missing attribute with 0 (`Repository.DynamoRepository.Put`).

**Incidents and work orders** (`Detection`, `Operations`, `OperationsInvariants`,
`OperationsEffects`, `PlantService`, `TelemetryRace`). The streak detector, automatic and simulated
incidents, status updates, approvals, completions and restarts as one sequential state
machine, and as the handlers that run it. The duplicate check of an automatic incident
looks at a listing, not at the table it then writes, and a PATCH writes over whatever
was stored since its check; `TelemetryRace` interleaves both kinds of handlers and says
exactly when two automatic incidents are open on one sensor.

**Algorithms** (`StableSort`, `TelemetryWindow`, `Retrieval`, `ActionPlan`,
`DocumentVersions`, `SqsWorker`). Loops proved against specifications that do not
mention the loop.

`m` is the retry limit throughout. Fields described as history record what happened
and influence nothing.

## Model

| member | source | states |
|---|---|---|
| `DeadLetterIds.DeadLetterIdIsInjective` | services/event_worker/app/main.py:355 | distinct records never share a dead-letter id, even when topic names contain dashes and digits |
| `KafkaWorker.KafkaEventWorker.constructor` | services/event_worker/app/main.py:227-245 | the retry limit, or one if it is smaller; the process starts at the committed offsets with empty counters |
| `KafkaWorker.KafkaEventWorker.ProcessRecord` | services/event_worker/app/main.py:312-340 | an event that is valid, storable and not found is stored once under its own id unless the write is refused, and nothing else changes; success exactly when it was found or its write answered |
| `KafkaWorker.KafkaEventWorker.DeadLetter` | services/event_worker/app/main.py:347-404 | the letter goes out first, with the record's value and count; its entry is filed only after that was answered and if the table can hold it; success exactly when both were answered |
| `KafkaCalls.AttemptStoresOnce` | services/event_worker/app/main.py:312-340 | the same for the specified attempt, by its effects on store and history |
| `KafkaCalls.LetterGoesFirst` | services/event_worker/app/main.py:347-404 | the same for the specified dead letter, by its effects on topic and store |
| `KafkaWorker.KafkaEventWorker.ProcessRecordWithRetry` | services/event_worker/app/main.py:406-432 | settled, pending or escaped, with the counters of the specified step |
| `KafkaWorker.KafkaEventWorker.PollRecords` | services/event_worker/app/main.py:303-304 | positions move past everything delivered, nothing else changes |
| `KafkaWorker.KafkaEventWorker.Seek` | services/event_worker/app/main.py:306-310 | rewinds one partition only |
| `KafkaWorker.KafkaEventWorker.CommitPositions` | services/event_worker/app/main.py:457 | commits every partition's position at once |
| `KafkaWorker.KafkaEventWorker.WorkOff` | services/event_worker/app/main.py:449-455 | the inner loop stops at the first pending record, which it rewinds to, or at an escaping exception |
| `KafkaWorker.KafkaEventWorker.PollTurn` | services/event_worker/app/main.py:442-469 | one whole turn: all positions are committed exactly when it brought records, did not raise and left no partition rewound, otherwise no committed offset changes; unless it raises nothing unhandled is left behind the consumer |
| `KafkaCommits.TurnCommitsExactlyWhenDone` | services/event_worker/app/main.py:442-469 | the same commit rule for the specified turn, told from the positions before and after |
| `KafkaSafety.RestartResumes` | services/event_worker/app/main.py:227-260 | a new process resumes every partition at its committed offset, counts from nothing and finds everything stored or sent before |
| `KafkaSafety.SettledIsHandled` | services/event_worker/app/main.py:406-432 | a call that reports success has its event stored or dead-lettered and filed, and forgets nothing |
| `KafkaSafety.TurnShape` | services/event_worker/app/main.py:442-469 | any turn, escaping or not, only moves positions forward and only extends store, letters and writes |
| `KafkaSafety.TurnHandlesWhatItPasses` | services/event_worker/app/main.py:445-459 | a turn that does not escape leaves no unhandled record behind the consumer beyond those it found |
| `KafkaSafety.CommittedIsHandled` | services/event_worker/app/main.py:406-469 | at-least-once: on every run without an escaping dead letter or seek, crashes included, every offset below a committed one has its event stored, or was sent to the dead-letter topic and had its dead-letter entry put |
| `KafkaFilings.FilesOnEveryRun` | services/event_worker/app/main.py:355-399 | on every run, escapes and foreign writers included: however often a record is dead-lettered, one entry under its own id tells of it, with the attempts of a letter that was sent, and no other key holds a dead-letter entry |
| `KafkaFilings.CommittedIsEvident` | services/event_worker/app/main.py:406-469 | at-least-once with its evidence: below a committed offset the store holds the event's own entry, or the record's own dead-letter entry |
| `KafkaLoss.CommitIsSafeIffNothingWasSkipped` | services/event_worker/app/main.py:456-469 | a commit whose turn does not itself bring the events of records skipped before is safe if and only if all skipped records were handled before the turn |
| `KafkaLoss.StrandedUntilRestart` | services/event_worker/app/main.py:424-469 | a record left unhandled behind the consumer, valid or not, stays so until a restart unless others store its event, and the next successful commit loses it |
| `KafkaLoss.LossIsPermanent` | services/event_worker/app/main.py:442-469 | on every continuation, restarts included, on which others do not store its event, a lost record stays unhandled |
| `KafkaLoss.MalformedLossIsPermanent` | services/event_worker/app/main.py:442-469 | a lost record that is not a valid envelope stays unhandled on every continuation |
| `KafkaPoison.FileableRunsDoNotEscape` | services/event_worker/app/main.py:353-399 | with the dead-letter path answered, only a record whose own dead letter cannot be filed can make a turn escape |
| `KafkaPoison.PollPast` | services/event_worker/app/main.py:406-469 | in an environment without any fault, a record that can be neither stored nor filed, and whose event neither anybody has stored nor its partition stores, is committed past and left unhandled |
| `KafkaPoison.SafeOnEveryFaultlessRunIffNoneHopeless` | services/event_worker/app/main.py:312-469 | without any fault, committed offsets stay handled on every run if and only if every record to be consumed can be stored, can be filed, is stored already, or follows one in its partition that stores the same event |
| `KafkaPoison.LoseNeighbour` | services/event_worker/app/main.py:449-469 | whatever arrives behind a record that makes the worker escape, a valid event included, can be skipped with it and lost at the next commit |
| `KafkaPoison.SafeOnEveryBenignRunIffAllFileable` | services/event_worker/app/main.py:363-469 | with the dead-letter path answered, and any lookups, event writes, commits and crashes failing, committed offsets stay handled on every run if and only if the dead letter of every record to be consumed can be filed |
| `KafkaPoison.OneRefusalLosesAnyMalformedRecord` | services/event_worker/app/main.py:424-469 | why the proviso is needed: for every retry limit and every malformed record still to be consumed, a run that is benign but for that record's one refused publication commits past it and loses it |
| `KafkaRetries.CallIsBooked` | services/event_worker/app/main.py:406-432 | one call keeps counters equal to failed calls and dead-letters after exactly m of them; one that escapes leaves its m attempts on the count |
| `KafkaRetries.BooksBalanceOnEveryRun` | services/event_worker/app/main.py:306-310 | at every loop head: pending attempts only at current positions, in 1..m-1, one per failed call; every letter reports m attempts, carries its record's value and is sent once per process |
| `KafkaRetries.CallSpends` | services/event_worker/app/main.py:406-432 | every processing call lowers the sum of (end - front) * m - attempts |
| `KafkaRetries.BacklogDrainsInTime` | services/event_worker/app/main.py:240-457 | whatever the outcomes, batch sizes and idle turns, N records take at most N * m turns that deliver anything; after that many every log is consumed, and its end committed unless a commit was refused |
| `KafkaRetries.DrainedIsCommitted` | services/event_worker/app/main.py:442-457 | once every log is consumed, every log's end is committed, unless a commit was refused |
| `KafkaReplay.ReplayIsIdempotent` | services/event_worker/app/main.py:312-399 | one worker, any crash schedule: an event id is written at most once, its stored source never changes, and repeated dead-lettering keeps one entry per record under that record's id |
| `KafkaAnonymous.AnonymousRecordIsWrittenTwice` | shared/events.py:28-29 | every log with a storable envelope lacking an id has a run, with all generated ids new, that stores that record under two ids |
| `KafkaAnonymous.WrittenOnceIffNotNameless` | services/event_worker/app/main.py:312-340 | a record is written at most once on every run if and only if it is not a storable envelope without an id |
| `Repository.DynamoRepository.Put` | shared/dynamodb.py:46-80 | outcome and new table for any interference between read and write; undisturbed it succeeds if and only if the item is absent or versioned |
| `Repository.DynamoRepository.Get` | shared/dynamodb.py:82-91 | the stored data, or nothing exactly when there is no item |
| `Repository.ChainOnEveryRun` | shared/dynamodb.py:46-80 | the chain invariant holds on every interleaving of reads, conditional writes and vanishing writers |
| `Repository.VersionCountsSuccesses` | shared/dynamodb.py:53-74 | version = starting version + number of successful puts, data = that of the last one; unversioned items never change |
| `Repository.SuccessesFormAChain` | shared/dynamodb.py:53-80 | each success extends exactly the version it read with no success in between; no two successes read one version |
| `EventRace.RaceNeverDeadLetters` | services/event_worker/app/main.py:312-432 | with two attempts or more, no interleaving of workers on one event id dead-letters it, and a worker that is done leaves it stored |
| `EventRace.NextAttemptIsADuplicate` | services/event_worker/app/main.py:314-319 | a worker refused by the race finds the entry at its next lookup |
| `EventRace.RaceIsHarmlessIff` | services/event_worker/app/main.py:240-432 | a race alone can dead-letter an event if and only if there are two workers and one attempt |
| `IncidentLifecycle.SuccessesAreChanges` | shared/dynamodb.py:53-80 | on every interleaving as many requests are answered with success as statuses were stored |
| `IncidentLifecycle.ResolvedPassedEveryGate` | services/incident/app/main.py:175-185 | undisturbed PATCH requests: at most five changes along the graph; resolved implies analyzing, approved and in_progress before |
| `IncidentLifecycle.StatusNeverMovesBack` | services/work_order/app/main.py:229-237 | with completions interleaved anyhow and PATCHes undisturbed, the status rank never falls |
| `IncidentLifecycle.PatchIsLegalIff` | services/incident/app/main.py:377-388 | whatever the history, a PATCH about to store makes an allowed move if and only if the status is the one it checked, or it approves out of analysis or review |
| `IncidentLifecycle.PatchClimbsIff` | services/incident/app/main.py:377-388 | it does not move the status back if and only if the status is the one it checked, its own target, or a review before its approval |
| `IncidentLifecycle.StatusClimbsIffHarmless` | shared/dynamodb.py:53-74 | for every interleaving of PATCHes and completions, the status never moves back if and only if every PATCH that stores is harmless in that sense |
| `IncidentLifecycle.InterleavedPatchesMoveBack` | services/incident/app/main.py:377-388 | a run from a new incident in which two reviewers overlap and the approved incident falls back to review |
| `Detection.AnomalyDetector.Evaluate` | services/incident/app/detection.py:19-33 | counter and trigger of one sample |
| `Detection.CounterIsTrailingRun` | services/incident/app/detection.py:15-33 | for any interleaved stream the counter is the key's own trailing warning run modulo the threshold |
| `Detection.TriggersAsExpected` | services/incident/app/detection.py:19-33 | a sample triggers if and only if it is critical or completes a multiple of the threshold among its own key's samples; other keys never matter |
| `Detection.TriggersAreEarned` | services/incident/app/detection.py:28-33 | streak triggers times threshold never exceed a key's warnings |
| `Operations.ClassifyReads` | services/incident/app/main.py:252-256 | a reading is critical from 6/5 of its limit on, a warning from the limit on, for negative limits mirrored, and normal against a limit of zero |
| `PlantService.Plant.IngestTelemetry` | services/incident/app/main.py:188-274 | the sensor's streak, and a new incident with its severity and code, from the reading alone: stored if and only if the sample is due and the sensor has no unresolved incident; failing publications leave what was stored; keeps the invariant of all runs |
| `PlantService.Plant.SimulateIncident` | services/incident/app/main.py:320-346 | stores a manual incident, critical from 6/5 of the limit on, without a duplicate check, also when publishing then fails; keeps the invariant of all runs |
| `PlantService.Plant.PatchStatus` | services/incident/app/main.py:369-403 | 404 or 409 and no change, or exactly the requested status on exactly that incident, which stays stored when publishing it fails; keeps the invariant of all runs |
| `PlantService.Plant.DecideActionPlan` | services/work_order/app/main.py:61-106 | a decision with a proper comment is stored; an open order without evidence, on the same incident and analysis, is opened if and only if the decision calls for work and was published; keeps the invariant of all runs |
| `PlantService.Plant.CompleteWorkOrder` | services/work_order/app/main.py:188-247 | a confirmed completion that covers the checklist leaves the order completed with exactly its evidence and the incident resolved, through the service only if it was in progress; anything else changes nothing and answers 422, 404 or 409; keeps the invariant of all runs |
| `OperationsEffects.SampleIsTaken` | services/incident/app/main.py:188-274 | what one sample does, over the reading, the streak it found and the unresolved incidents |
| `OperationsEffects.SimulationIsStored` | services/incident/app/main.py:320-346 | the stored manual incident, its severity from the reading |
| `OperationsEffects.PatchReachesTheIncident` | services/incident/app/main.py:369-403 | the requested status reaches the incident if the graph allows it, and nothing else changes |
| `OperationsEffects.DecisionOpensOrderIff` | services/work_order/app/main.py:61-106 | which decisions open an order, and with which contents |
| `OperationsEffects.CompletionResolvesTheIncident` | services/work_order/app/main.py:188-247 | which completions count, the evidence they leave and when the incident is resolved |
| `OperationsEffects.WorkFreesTheSensor` | services/work_order/app/main.py:61-247 | from an approval through its order to the completion: the incident is resolved and the next critical sample of its sensor opens a new one |
| `OperationsInvariants.SoundOnEveryRun` | services/incident/app/main.py:188-403 | on every sequential run, restarts included: one unresolved automatic incident per sensor, statuses never move back, orders rest on distinct approvals with evidence |
| `OperationsInvariants.StepKeepsOnePerSensor` | services/incident/app/main.py:202-209 | each action keeps at most one unresolved automatic incident per equipment and sensor |
| `OperationsInvariants.StepKeepsOrdersSound` | services/work_order/app/main.py:61-217 | each action keeps orders grounded in distinct non-reject approvals, with non-empty checklists, and completed ones fully evidenced, re-completion included |
| `OperationsInvariants.SampleOpensIncidentIff` | services/incident/app/main.py:188-236 | after any run a sample opens an incident if and only if the key's readings since the last restart call for it and none is unresolved; a critical reading always calls; severity and code follow the reading |
| `PlantService.Plant.constructor` | services/incident/app/main.py:94-96 | a new process over existing tables starts with an empty detector and keeps the invariant of the tables |
| `TelemetryRace.UninterruptedIsSequential` | services/incident/app/main.py:188-228 | the steps of a telemetry handler, and those of a PATCH, without anything in between are the sequential handlers |
| `TelemetryRace.PutKeepsOneIff` | services/incident/app/main.py:200-228 | a new incident keeps one open automatic one per sensor if and only if none is open on it that its handler's listing lacked or showed as resolved |
| `TelemetryRace.PatchKeepsOneIff` | services/incident/app/main.py:377-388 | the write of a PATCH keeps it if and only if it does not reopen an automatic incident, resolved since the check, beside another open one |
| `TelemetryRace.OneThroughoutIffHarmless` | services/incident/app/main.py:188-403 | for every interleaving of telemetry handlers, PATCHes and other requests: one open automatic incident per sensor at every point of the run if and only if every such write meets its condition |
| `TelemetryRace.StaleListingOpensTwo` | services/incident/app/main.py:200-228 | a run from an empty plant in which two handlers list before either stores, and both store |
| `TelemetryRace.LatePatchReopens` | services/incident/app/main.py:377-388 | a run from an empty plant with undisturbed handlers in which one late PATCH reopens a resolved incident beside a new one |
| `Pagination.ListPage` | shared/dynamodb.py:93-112 | never more than the limit asked for, nor than 200, nor than one for a limit below one; the next stretch of the type's rows after the cursor, at least one while any remain; the new cursor names the last row, and none means nothing remains |
| `Pagination.List` | shared/dynamodb.py:114-123 | for any page sizes and trailing cursors the loop ends with exactly the entity type's items, in index order, once each |
| `Pagination.OfTypeIsTheFilter` | shared/dynamodb.py:102 | the listing holds the rows of that entity type and no others |
| `Pagination.OfTypeConcatenates` | shared/dynamodb.py:100-105 | the listing of a split index is the concatenation of the listings: order is kept |
| `StableSort.SortIsStable` | shared/rag.py:58 | equal keys keep their order |
| `StableSort.StableOrderIsUnique` | shared/rag.py:58 | any descending arrangement keeping the order of equal keys is the computed one |
| `TelemetryWindow.MergeTelemetry` | web/src/App.tsx:453-459 | the Map, sort and slice loops compute the specified merge |
| `TelemetryWindow.LastArrivalWins` | web/src/App.tsx:453-459 | of several records with one id the last to arrive is shown, incoming after current; at most 100, newest first, none twice |
| `TelemetryWindow.MergeKeepsTop` | web/src/App.tsx:453-459 | merging a batch into 100 newest records gives 100 newest of everything so far, ties left open |
| `TelemetryWindow.StreamIsWindow` | web/src/App.tsx:453-459 | after any batches the window is the newest 100 of all records ever received, newest first, unless two records of one instant compete for it |
| `TelemetryWindow.ArrivalOrderIsIrrelevantIff` | web/src/App.tsx:453-459 | for any set of immutable records, order, batching and repetition of arrivals do not matter if and only if any two records of one instant have 100 newer ones |
| `Retrieval.CountMatches` | shared/rag.py:54 | the number of terms contained in the text |
| `Retrieval.RetrieveChunks` | shared/rag.py:48-68 | the loop, sort and slice compute the specified ranking; every chunk is a listed document with a query word in its file name or text; scores are in (0, 1] and never rise along the result |
| `Retrieval.HitIff` | shared/rag.py:48-56 | a document is a hit if and only if a query word of two characters or more occurs in its folded file name and text |
| `Retrieval.NameAndTextAreSearched` | shared/rag.py:51-54 | a word found in the file name alone, or in the text alone, makes a hit |
| `Retrieval.TopHits` | shared/rag.py:49-67 | min(limit, hits) true hits, for negative limits all but so many of the last, by falling match count, ties in listing order, every omitted hit after every returned one |
| `Retrieval.ScoresAreRatios` | shared/rag.py:62 | scores are in (0, 1] and the clamp never takes effect |
| `ActionPlan.Deduplicate` | services/ai_analysis/app/engine.py:173-183 | the loop with its seen set computes the specified plan, or fails when it is empty |
| `ActionPlan.DedupSelects` | services/ai_analysis/app/engine.py:175-180 | the plan is the ordered filter of first non-blank occurrences, numbered 1..n |
| `ActionPlan.DroppedRepeatsKept` | services/ai_analysis/app/engine.py:177-178 | every dropped non-blank action repeats an earlier kept one |
| `ActionPlan.UnusableIffAllBlank` | services/ai_analysis/app/engine.py:181-182 | the pass fails if and only if all instructions are blank |
| `ActionPlan.DedupIsIdempotent` | services/ai_analysis/app/engine.py:173-183 | a second pass changes nothing |
| `DocumentVersions.Assemble` | services/ai_analysis/app/main.py:183-209 | the version map covers exactly the related ids, chunk versions taking precedence over lookups |
| `DocumentVersions.FirstSeenMembers` | services/ai_analysis/app/main.py:183-188 | related ids are the requested and retrieved ones, without repeats |
| `DocumentVersions.FirstSeenKeepsOrder` | services/ai_analysis/app/main.py:183-188 | they are listed in the order of their first occurrences |
| `DocumentVersions.LastChunkWins` | services/ai_analysis/app/main.py:189-192 | a document's recorded version is the version field of its last chunk, or "unknown" if that is missing or empty |
| `SqsWorker.EventWorker.ProcessMessage` | services/event_worker/app/main.py:139-169 | a valid envelope is stored under the event id its body carries, else under the message id, with the receipt's count, and then deleted, for every fate of the two effects; anything else changes nothing |
| `SqsWorker.DeliveryStoresThenDeletes` | services/event_worker/app/main.py:139-169 | the same for the specified delivery, in terms of the message's fields |
| `SqsWorker.EntriesAreUnderEventIds` | services/event_worker/app/main.py:72-169 | on every run deleted messages had valid envelopes and their entries are under the event id of the body, or under the message id if it carries none |
| `SqsWorker.SameEventSharesItsEntry` | services/event_worker/app/main.py:80-81 | one event sent in several messages has one entry |
| `SqsWorker.DeletedIsStored` | services/event_worker/app/main.py:72-217 | under any redelivery with new receipts, and any failures, a message leaves the queue only with its event stored under a key fixed by its id and body, and every entry is what some message says |
| `SqsWorker.OneEntryPerMessage` | services/event_worker/app/main.py:139-217 | starting empty, however often and under whatever receipts messages are redelivered, there are never more entries than messages, and every deleted message has its entry |

## Left out

- Kafka offsets are dense: compaction gaps, rebalancing and the 100-record limit of a poll are not modelled; batches may have any size.
- A poll that raises, for instance in the value deserialiser, has no effect in the model; the documentation says such records reach the dead-letter topic, the code never processes them.
- KafkaPoison.LoseNeighbour: polls the rest of a partition in one batch, also where that is more than 100 records.
- KafkaPoison.SafeOnEveryFaultlessRunIffNoneHopeless: assumes that event ids are not of the dead-letter form.
- A table item without a version can never be updated (Repository); for the worker this is one of the ways in which filing an entry is refused.
- KafkaReplay.ReplayIsIdempotent: assumes a single worker and that no event id has the form of a dead-letter id; `put` is an upsert, so a second worker can rewrite an entry.
- Generated ids (`uuid4`) are parameters assumed to be new where a statement needs it.
- Event payloads, producers, correlation ids, timestamps and log lines are not part of the entries.
- In Operations a failing repository write is not modelled; every failing publication and a refused PATCH are. Requests run one after another there; IncidentLifecycle interleaves the status changes of one incident, TelemetryRace telemetry handlers and PATCHes.
- Sensor values and scores are reals; NaN, infinities and rounding are not modelled.
- `casefold`, `strip` and `split` are parameters; the HTTP branch of the retriever, chunk contents and locations are not modelled.
- Pagination.List: assumes that the index does not change while it is listed; eventual consistency of the index is not modelled.
- TelemetryWindow.ArrivalOrderIsIrrelevantIff: assumes immutable records; for changing ones the last arrival wins.
- Authentication, roles, WebSockets, metrics, topic routing, the AI engines, evaluation, migration scripts, infrastructure and the user interface would only add easy members or belong to libraries.
