# Pregel conductor, modelled in Dafny

This project models the conductor of ArangoDB's JavaScript Pregel engine
(`js/server/modules/org/arangodb/pregel/conductor.js`). The conductor runs a
bulk-synchronous graph computation. It saves an execution record, builds the
mapping from the graph's collections and shards to their result collections,
and then drives supersteps. Each worker reports the end of a step. A merge
transaction adds the report into the record and ticks the worker off a
barrier (`waitForAnswer`). When the barrier closes, the conductor either
starts the next step, runs one final pass, or cleans up. A deadline task can
end the run with a timeout error, and two queries (`getResult`, `getInfo`)
read the record.

Modules:

- `Wrappers` (`wrappers.dfy`): `Option` and `Result`.
- `Names` (`names.dfy`): the result-collection name and the deadline-task id
  derived from an execution number. Both are proved injective, the first
  only when execution numbers are decimal keys, with a concrete collision
  when they are not.
- `Topology` (`topology.dfy`): `createResultGraph` in its mapping-only form.
  `CreateResultGraph` is the source's loop over the collections, with the
  inner loops over shards. It is proved equal to `ResultGraphOf`, a
  collection-by-collection specification. Lemmas then state what each map
  of that specification holds.
- `Conductor` (`conductor.dfy`): the execution record as a class whose
  methods update it in place (`FinishedStep`, `ApplyReport`,
  `InitNextStep`, `CleanUp`, `TimeOutExecution`). It also holds the barrier
  helpers, the report checks and the step decision as functions, plus
  `StartExecution`.
- `ConductorScenarios` (`scenarios.dfy`): client methods that replay runs
  through the record's contracts alone. They cover one worker advancing,
  two workers converging, a worker error, rejected reports, the final pass,
  a timeout, and these corners of the code:
  - a report without an error clears an earlier worker error;
  - a second report from the same server is counted twice;
  - a report that arrives after a timeout still advances the run, and
    `getResult` then throws;
  - a timeout after a normal finish turns the run into an error;
  - a final pass that reports activity is followed by an ordinary step, and
    once the run converges again the final pass runs a second time, with no
    superstep hook involved;
  - a superstep hook that clears the counts makes the final pass run twice
    in a row;
  - after a worker error the step and the barrier stay as they were, every
    server marked answered, so a repeated error-free report for that step
    closes the barrier again and the errored run can end finished with its
    error cleared;
  - a primitive worker error is returned by `getResult` without the state.

The code has no guards for these cases. `cleanUp` does not check whether
the record has already ended. The decision after a final pass is the usual
one, so the final pass does not stop the run by itself and can run more
than once. The barrier does not reject a repeated report from a server that
has already answered, and a worker error does not reset it. A run can
therefore leave a terminal state again.

Hypotheses that are stated as `requires` and not assumed elsewhere:

- `ShardsDistinct`: shard ids are unique across the graph's collections, as
  cluster shard ids are.
- `IsDecimal`: execution numbers are decimal document keys.

## Model

| member | source | states |
|---|---|---|
| Names.ResultCollectionName | js/server/modules/org/arangodb/pregel/conductor.js:217-219 | the name is "P_", then the execution number, then "_RESULT_", then the collection name; its length is the sum of those parts, and the number and collection can be read back at fixed positions |
| Names.TaskId | js/server/modules/org/arangodb/pregel/conductor.js:61-63 | the task id is "Pregel_Task_" followed by the execution number, which can be read back from the id |
| Names.TaskIdInjective | js/server/modules/org/arangodb/pregel/conductor.js:61-63 | two executions share a deadline-task id exactly when their numbers are equal |
| Names.ResultNamesDistinct | js/server/modules/org/arangodb/pregel/conductor.js:217-219 | within one execution, two collections get the same result name exactly when they are the same collection |
| Names.ResultNameInjective | js/server/modules/org/arangodb/pregel/conductor.js:217-219 | with decimal execution numbers, equal result names imply the same execution and the same collection |
| Names.ResultNameCharAt | js/server/modules/org/arangodb/pregel/conductor.js:217-219 | the character after the prefix and i digits is the i-th digit, or the '_' that opens "_RESULT_" once the number has ended |
| Names.ResultNameCollision | js/server/modules/org/arangodb/pregel/conductor.js:217-219 | without the decimal hypothesis, execution "1" with collection "x_RESULT_y" and execution "1_RESULT_x" with collection "y" share a result name |
| Topology.PlacedCollections | js/server/modules/org/arangodb/pregel/conductor.js:284-292 | the builder sees the collections in the same order with the same names and types; on a single server each has no shard keys and one shard named like the collection |
| Topology.LocalCollection | js/server/modules/org/arangodb/pregel/conductor.js:288-292 | on a single server, a collection's only shard is the collection itself and its only result shard is its result collection |
| Topology.GroupByServer | js/server/modules/org/arangodb/pregel/conductor.js:298-302 | the loop that appends each shard to its server's list for the collection yields `Grouped`, the placements added one by one in order |
| Topology.CreateResultGraph | js/server/modules/org/arangodb/pregel/conductor.js:261-384 | the mapping built by the loops is `ResultGraphOf`: shard keys, shard list, both server maps, edge-shard table, result shards, collection map and per-collection entries, each as the specification defines it |
| Topology.EntriesOfKeys | js/server/modules/org/arangodb/pregel/conductor.js:277-292 | the per-collection entries have exactly the graph's collection names as keys |
| Topology.EntriesOfCollections | js/server/modules/org/arangodb/pregel/conductor.js:277-333 | a collection's entry holds its type, its result collection, its shard placements and shard keys, and its result collection's shard placements, for edge and vertex collections alike |
| Topology.CollectionMapNames | js/server/modules/org/arangodb/pregel/conductor.js:282-283 | the collection map has exactly the graph's collection names as keys, maps each to its result-collection name, and maps distinct collections to distinct names |
| Topology.ShardMapAppend | js/server/modules/org/arangodb/pregel/conductor.js:294-306 | the shard list of two runs of collections is the concatenation of their shard lists |
| Topology.ShardMapPosition | js/server/modules/org/arangodb/pregel/conductor.js:294-306 | the i-th shard of the k-th collection sits in the shard list right after the shards of the collections before it |
| Topology.ResultShardsKeys | js/server/modules/org/arangodb/pregel/conductor.js:341-345 | the original-to-result shard map has exactly the shards of the shard list as keys |
| Topology.ResultShardsPositional | js/server/modules/org/arangodb/pregel/conductor.js:341-345 | with unique shard ids, the i-th original shard of a collection maps to the i-th result shard of that collection, or to nothing when the result collection has fewer shards |
| Topology.EdgeShardsAligned | js/server/modules/org/arangodb/pregel/conductor.js:347-362 | with unique shard ids, the i-th shard of any vertex collection maps to the list of the i-th shards of all edge collections in order, with an absent entry for an edge collection that has fewer shards; it maps to nothing when i is at least the shard count of the last vertex collection |
| Topology.ServerMapLookup | js/server/modules/org/arangodb/pregel/conductor.js:298-302 | the list stored under a server and a vertex collection is exactly that server's shards of the collection, in shard order |
| Topology.ServerMapMembership | js/server/modules/org/arangodb/pregel/conductor.js:334-339 | a shard is listed under a server and a collection exactly when that vertex collection places the shard on that server, for original and for result shards alike |
| Conductor.GetWaitForAnswerMap | js/server/modules/org/arangodb/pregel/conductor.js:102-113 | the fresh barrier has exactly the workers as keys (the DB servers on a coordinator, "localhost" otherwise), none of them answered |
| Conductor.EveryServerResponded | js/server/modules/org/arangodb/pregel/conductor.js:544-549 | the scan reports true exactly when every server of the barrier has answered |
| Conductor.CheckReport | js/server/modules/org/arangodb/pregel/conductor.js:503-521 | a report is rejected for step mismatch exactly when its step is missing or differs; as malformed exactly when the step matches and a count is missing; for server-name mismatch exactly when it is otherwise complete but the server is not in the barrier; and accepted in every other case |
| Conductor.DecideOnCounts | js/server/modules/org/arangodb/pregel/conductor.js:248-257 | with non-negative counts, an ordinary step follows exactly a step that did not converge; the final pass follows exactly a converged step that was not flagged final when a final algorithm is set; otherwise the run stops |
| Conductor.MergeAllKeepsFinal | js/server/modules/org/arangodb/pregel/conductor.js:535-538 | adding any run of reports to a slot never changes its final flag |
| Conductor.FinalPassNotImmediatelyRepeated | js/server/modules/org/arangodb/pregel/conductor.js:230-253 | without a superstep algorithm, after a final-pass decision on non-negative counts, the completion of the step right after it never asks for another final pass, whatever its workers report |
| Conductor.FinalPassRepeatsUnderHook | js/server/modules/org/arangodb/pregel/conductor.js:234-251 | with a superstep hook that clears the counts, an active step leads to a final pass, and that final pass leads to a second one |
| Conductor.ExecutionRecord.Start | js/server/modules/org/arangodb/pregel/conductor.js:430-446 | the saved record is at step 0 and running, with the vertex count as active in slot 0 and an empty slot 1, a fresh barrier, no error, the timeout stored only when non-zero, and the job's algorithms and graph name as globals |
| Conductor.ExecutionRecord.ApplyReport | js/server/modules/org/arangodb/pregel/conductor.js:529-555 | the merge transaction adds the report's counts and data into the next slot, replaces the stored error with the report's error, marks the server answered, changes nothing else, and returns whether the barrier closed, that error, and the slot's new active count |
| Conductor.ExecutionRecord.FinishedStep | js/server/modules/org/arangodb/pregel/conductor.js:498-600 | a rejected report throws the `CheckReport` error and leaves the record unchanged; an accepted one is merged; if the barrier stays open the run waits; if it closes with an error the run ends in that error; if it closes without one, the record moves to the next step and the outcome is the `Decide` decision on the hooked slot |
| Conductor.ExecutionRecord.InitNextStep | js/server/modules/org/arangodb/pregel/conductor.js:225-258 | the step counter goes up by one; a new slot flagged final exactly when the completed step converged is appended; the barrier is fresh; the superstep hook's globals are kept; the decision is taken on the hooked slot; a stop finishes the run; without a superstep algorithm and with non-negative counts, a final-pass decision flags the new slot final |
| Conductor.ExecutionRecord.CleanUp | js/server/modules/org/arangodb/pregel/conductor.js:172-183 | the state becomes error with the error stored when one is given, and finished otherwise, whatever the state was before; nothing else changes |
| Conductor.ExecutionRecord.TimeOutExecution | js/server/modules/org/arangodb/pregel/conductor.js:209-215 | the run ends in error with the timeout error, from any state; nothing else changes |
| Conductor.ExecutionRecord.GetResult | js/server/modules/org/arangodb/pregel/conductor.js:472-485 | a finished run replies with its result graph name, a running one with an empty name; a run in error replies with its stored error object with the state attached, or with a primitive error value bare; a run in error with no stored error throws |
| Conductor.ExecutionRecord.GetInfo | js/server/modules/org/arangodb/pregel/conductor.js:488-496 | the reply holds the record's current step and state |
| Conductor.StartExecution | js/server/modules/org/arangodb/pregel/conductor.js:422-470 | the record is saved first in every case, with the job's algorithms and graph name as globals and the timeout stored only when non-zero; an algorithm that does not compile gives a bad-parameter error and no result graph name; otherwise the result is `ResultGraphOf` for the record's key and the collections as placed for the role, and the result graph's name is stored |

## Left out

- Messages to the workers (`startNextStep`, the cleanup requests, the cluster transaction round trip) are I/O. The model keeps only their effect on the record. `FinishedStep` and `InitNextStep` return the decision that would be sent.
- The deadline task's registration and unregistration, and the timeout value sent with each step, are scheduler I/O. `TimeOutExecution` is the task firing.
- Timing bookkeeping (`startTimer`, `storeTime`, `clearTimer`, stop watches) does not affect control flow.
- Concurrency: the store transaction at lines 529-555 is modelled as one atomic method, and interleavings of concurrent reports are not modelled.
- The store's update semantics are not modelled. Every update replaces the fields it names. A report without an error therefore clears the stored error, where a store that skips `undefined` attributes on update would keep it.
- Evaluating the user's algorithms with `new Function` is not modelled. Whether the base algorithm compiles is a parameter of `StartExecution`, and the superstep hook is a function parameter.
- Creating the result collections, their indexes and the result graph (edge definitions, orphan collections) is storage I/O. The shard lists of the result collections are an input, and `CreateResultGraph` models the mapping only, which is the `noCreation` path.
- Topology.CreateResultGraph: collections and shards are visited in the order given. JavaScript's ordering of integer-like object keys is not modelled.
- The options passed through to the workers (aggregator, base algorithm, the `final` flag of a final pass) are not modelled.
- The caller's other options are not modelled. The source saves the whole options object as the record's global values and shows it to the superstep hook. `Globals` keeps only the two algorithms, the graph name and the step.
- JavaScript numbers are modelled as unbounded integers: the step counter, the timeout and the summed `active` and `messages` counts. Floating-point rounding of large sums is not modelled.
- Conductor.FinalPassNotImmediatelyRepeated: covers only the step right after a final pass, and only without a superstep algorithm. The final pass is not promised to run once per job. A final pass that reports activity is followed by an ordinary step, and when that step converges the final pass runs again (`ConductorScenarios.FinalPassRunsAgainAfterActivity`). With a superstep algorithm, the new slot is flagged from the counts before the hook while the decision reads them after it, so two final passes in a row are reachable (`FinalPassRepeatsUnderHook`).
- Conductor.ExecutionRecord.GetResult: a falsy error payload (such as an empty string) is modelled as no error, so such a record throws in the model.
- Reports whose `data` is not an array, and other truthiness cases, are not modelled. A missing or falsy value is `None`.
- Server names that collide with object prototype keys are not modelled.
- `BasicsC/voc-errors.c` and `lib/ApplicationServer/ApplicationFeature.cpp` hold error tables and server plumbing only. Errors are modelled by name, not by number.
