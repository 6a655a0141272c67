# Verification of the Verdict capture, scan, release and dashboard protocols

Dafny models of the parts of Verdict whose correctness depends on state, order or failure, with proofs
of what they promise. `dafny verify dfyconfig.toml` checks everything.

| modules | model |
|---|---|
| `Utf8`, `BoundedValue`, `BoundedTwice`, `BoundedMeaning` | the two truncations of captured content: UTF-8 text cut at a byte limit, structured values cut in preorder by a shared node counter, once and again, and what is kept node by node |
| `EventPrivacy` | sanitizing, bounding and labelling the attributes of an event, for an arbitrary sanitizer |
| `EventNumbering`, `EventPlaces` | threads numbering events under the turn lock and the run lock, one lock operation, read or write at a time |
| `CaptureContexts` | the run, turn and tool contexts as objects that update their fields; each method is proved to do one step of `CaptureRecords` |
| `CaptureRecords`, `CaptureWorld`, `CaptureSteps`, `Sampling` | those steps on records, and the machine they make: any tasks, runs, turns and tools, any operations in any order, a sink that may fail at any time |
| `CaptureObjects` | a heap of those objects used by many tasks, proved to be such a machine: identity of objects is identity of keys, and each call is one step |
| `CaptureReplay`, `CaptureInvariants`, `CaptureLog`, `CaptureTheorems`, `CaptureContent` | what every reachable world satisfies: replay, latch, sampling, terminal status, evidence states |
| `CaptureHistory`, `CaptureAnswers`, `CaptureAccount` | a reference that reads the calls of a schedule and their answers alone, and the proof that every answer, every record and the whole log are what it says |
| `CaptureNesting`, `CaptureBrackets`, `CaptureMatches`, `CaptureExits`, `CaptureForks` | tasks that use the contexts through `with` blocks, interleaved and forked: context variables come back, every tool result has its call, and when tool events are balanced |
| `SourceMasking`, `DriftBlocks`, `DriftMeaning`, `RepositoryScan`, `ScanMeaning`, `Ordering` | the repository scanner: masked views, command blocks, the complete or failing scan, and where each finding comes from |
| `ReleaseGuard`, `ReleaseProtocol` | the publication guard, and many runs of it over rebuilds, crashes and partial uploads |
| `DeliveryPages`, `DashboardLoader` | the two stale-response protocols of the user interface |

Where the source changes state the model does: contexts, the node counter, the channel, the staging
directory, the delivery panel and the loader are classes, masking works on arrays, and loops are loops.
Each such method is proved equal to a step function or a specification, and the properties are proved
of those over all inputs, all schedules or all histories. Operations that the source rejects by raising
are steps with an error result. What the model cannot see (whether the sink stores a batch, whether a
record passes validation, what a regular expression matches, what reading a file gives at a moment) is a
parameter that may come out either way.

Promises that hold only under a condition:

- Truncating text twice is not truncating once for text that cannot be encoded under limits below 17
  bytes, since the marker for it is then cut itself (`Utf8.TruncateIdempotent`). The limits in use, 64,
  256, 1024 and 4096 bytes, are all above.
- Bounding a value twice can cut more than bounding it once, under both limits in use, when truncation makes
  keys of a dict equal in such a way that a value moves ahead of others (`BoundedTwice.KeyOrderIsExact`). Equal keys that stay
  together are harmless. Sorting keys and repairing their text, as the sanitizer does, does not rule it out
  (`BoundedTwice.CollisionCutsOnSecondPass`).
- Wherever contexts are used through `with` blocks, every tool result has its call
  (`CaptureMatches.EveryResultHasItsCall`). That every call gets its result has a condition: the tool events
  a task records on a turn are balanced exactly if its result events are valid and it closes its tools while
  the turn is unfinished. The latter is certain unless the task was forked inside the turn
  (`CaptureExits.OwnToolEventsAreBrackets`, `CaptureForks.ForkedChildLosesResult`). Validity of a tool event
  is validity of its metadata alone (`EventPrivacy.ToolMetadataSurvives`).
- A sample rate of 1 keeps all runs but those whose hash begins with one of the top 1024 numbers of 64
  bits (`Sampling.SamplingIsMonotone`).
- The line numbers of command blocks are those of the other findings only where LF, alone or after CR, is
  the only line break (`RepositoryScan.DriftLinesAreTextLines`, `RepositoryScan.FormFeedMovesLine`).
- A scan fails on a Python file with a span to mask on a line that LF does not count, as the parser gives it
  for a docstring when lone CRs make it count more lines than there are (`RepositoryScan.Scan`).
- The labels of events are consistent for every sanitizer, but they tell whether the given attributes had
  content only for a sanitizer that adds no keys (`EventPrivacy.LabelsTellWhatHappened`).

## Model

| member | source | states |
|---|---|---|
| `Utf8.RoundTrip` | packages/verdict/src/verdict/agent.py:84-91 | the lenient decoder undoes the encoder of section 3 of RFC 3629 on every encodable text |
| `Utf8.DecodeOfPrefix` | packages/verdict/src/verdict/agent.py:91 | decoding any byte prefix of an encoding gives exactly the code points that fit in it; a torn tail is ignored |
| `Utf8.TruncateIsLongestPrefix` | packages/verdict/src/verdict/agent.py:84-91 | the result is the longest code-point prefix whose encoding fits, and at most 3 bytes of room are lost when it cuts |
| `Utf8.TruncateIsEncodable` | packages/verdict/src/verdict/agent.py:84-91 | the result can always be encoded, whatever the input |
| `Utf8.TruncateIdempotent` | packages/verdict/src/verdict/agent.py:84-91 | truncating twice is truncating once, if and only if the text is encodable or the limit holds the 17-byte marker |
| `Utf8.TruncateMonotone` | packages/verdict/src/verdict/agent.py:84-91 | a smaller limit gives a prefix of what a larger one gives |
| `Utf8.EncodingIsStandard` | packages/verdict/src/verdict/agent.py:84-91 | the encoder follows the table of section 3 of RFC 3629: length by range, lead and continuation bytes in their ranges, the bits of the code point in order |
| `Utf8.InvalidTextIsMarked` | packages/verdict/src/verdict/agent.py:85-88 | text with a lone surrogate becomes the marker for invalid text |
| `BoundedValue.VisitInPlace` | packages/verdict/src/verdict/agent.py:121-143 | the recursive visit that counts nodes in a shared mutable counter returns and counts what the threaded function does |
| `BoundedValue.Bound` | packages/verdict/src/verdict/agent.py:109-154 | the whole operation: what the sanitizer returned, cut in preorder with one fresh counter; the oversize marker where the JSON text is too long, and the invalid marker where the sanitizer or the size check raises |
| `BoundedValue.VisitIsPreorderCut` | packages/verdict/src/verdict/agent.py:121-143 | the counter-threaded traversal equals the cut that keeps a node iff its preorder index and its depth are within the limits, though the counter skips what lies below a cut node |
| `BoundedValue.WorkIsBounded` | packages/verdict/src/verdict/agent.py:121-143 | at most 1 + 24 * max_nodes nodes are visited, however large the value is |
| `BoundedValue.DepthIsBounded` | packages/verdict/src/verdict/agent.py:121-143 | the result is at most max_depth + 1 levels deep |
| `BoundedValue.InBoundsUnchanged` | packages/verdict/src/verdict/agent.py:121-143 | a value within the limits comes back unchanged |
| `BoundedMeaning.BoundingKeeps` | packages/verdict/src/verdict/agent.py:121-143 | node by node, without the functions that compute it: a node is kept iff its preorder index and depth are within the limits; null, booleans, integers and finite numbers stay, text becomes its longest prefix of at most 1024 bytes, a non-finite number and any other object their markers; a list keeps its first 24 items in order, a dict its first 24 entries under keys cut to 64 bytes, each key once at its first place with its last value |
| `BoundedMeaning.VisitKeeps` | packages/verdict/src/verdict/agent.py:109-143 | the same of the traversal that counts as it goes |
| `BoundedTwice.VisitTwice` | packages/verdict/src/verdict/agent.py:121-143 | bounding is idempotent, count for count, when no truncated sibling keys collide |
| `BoundedTwice.VisitAgain` | packages/verdict/src/verdict/agent.py:133-137 | where truncation keeps the order of keys, a second traversal that starts at no greater count changes nothing and counts no further |
| `BoundedTwice.BoundTwice` | packages/verdict/src/verdict/agent.py:109-154 | the cut is idempotent when truncation keeps the order of every dict's keys, or when the value is within the node limit |
| `BoundedTwice.KeyOrderIsExact` | packages/verdict/src/verdict/agent.py:133-137 | for given keys and each of the two limits in use (depth 4 and 128 nodes, depth 3 and 112 nodes), the cut is idempotent for all items if and only if the last values come in the order of the first places |
| `BoundedTwice.OrderLost` | packages/verdict/src/verdict/agent.py:133-137 | keys that lose their order have plain items for which, at each limit in use, the second cut removes a node the first one kept |
| `BoundedTwice.CollisionCutsOnSecondPass` | packages/verdict/src/verdict/agent.py:133-137 | three keys of valid text in sorted order, as sanitized dicts have them, that do, at each limit in use |
| `EventPrivacy.LabelsAreConsistent` | packages/verdict/src/verdict/agent.py:256-377 | for every sanitizer (dropping, adding, raising): omitted iff a reason is given, redacted iff content is present, metadata only without content and reason |
| `EventPrivacy.NoContentWithoutCapture` | packages/verdict/src/verdict/agent.py:263-267 | with content capture off no event has a content field or is labelled redacted |
| `EventPrivacy.LabelsTellWhatHappened` | packages/verdict/src/verdict/agent.py:317-345 | if the sanitizer only removes keys, the label and reason of an event say exactly whether it had content and what became of it |
| `EventPrivacy.ToolMetadataSurvives` | packages/verdict/src/verdict/agent.py:272-296 | a tool event is recorded whenever its metadata alone would be, and its metadata is the bounded metadata it was given |
| `EventPrivacy.ToolContentIsSanitized` | packages/verdict/src/verdict/agent.py:272-296 | of a recorded tool event: its content field, if there, is the bound of what the sanitizer answered for that field alone, and every other value the bound of the given one |
| `EventPrivacy.ToolContentIsKept` | packages/verdict/src/verdict/agent.py:278-296 | content the sanitizer answered for is recorded, redacted, unless the checks reject the event with it, and then the reason says which check |
| `EventPrivacy.OtherContentIsSanitized` | packages/verdict/src/verdict/agent.py:297-345 | every value of another event is one the last call of the sanitizer returned, on values each of which was bounded; which attributes it was given, and the label and reason, are exact |
| `EventPrivacy.OtherMetadataSurvives` | packages/verdict/src/verdict/agent.py:300-377 | another event is recorded as long as the sanitizer answers and the metadata of its last answer alone would be |
| `EventNumbering.NumbersAreExact` | packages/verdict/src/verdict/agent.py:387-395 | for every interleaving of threads, at every moment: producer numbers are 0..m-1, each turn's numbers 0..n-1, turn numbers 0..q-1, each once, and the orders of a turn's events agree |
| `EventNumbering.SomeThreadCanStep` | packages/verdict/src/verdict/agent.py:387-390 | turn lock before run lock cannot deadlock: while work is left some thread can step |
| `EventNumbering.SchedulesEnd` | packages/verdict/src/verdict/agent.py:387-395 | no schedule is longer than the work there was |
| `EventNumbering.RejectedEventsTakeNoNumber` | packages/verdict/src/verdict/agent.py:347-395 | when all threads have finished, each holds one set of numbers for every accepted request, in its own order, and none for an event rejected at construction |
| `EventNumbering.NextNumbered` | packages/verdict/src/verdict/agent.py:784-794 | each step of each thread keeps the log of numbers exact and the counters equal to its lengths |
| `EventNumbering.WaitsForLock` | packages/verdict/src/verdict/agent.py:387-390 | a thread with work that cannot step waits for a lock of its turn or of the run that another thread holds |
| `EventPlaces.NumbersArePlaces` | packages/verdict/src/verdict/agent.py:387-395 | the event with number n in its run, or in its turn, is the n-th of the run, or of the turn, in the log; and so for the openings of turns |
| `EventPlaces.RequestsMatchNumbers` | packages/verdict/src/verdict/agent.py:347-395 | when all threads have finished, the requests of a thread that were not rejected match what it took one by one, in order and by turn |
| `CaptureRecords.TerminalStatus` | packages/verdict/src/verdict/agent.py:187-194 | completed iff no error, cancelled before timed out before failed, never unknown |
| `Sampling.SamplingIsMonotone` | packages/verdict/src/verdict/agent.py:812-814 | with the rounding of the quotient: a run is sampled iff its rounded digest is below rate times 2^64; a higher rate never drops a run, rate 0 keeps none, and rate 1 keeps exactly the runs below the top 1024 of the 2^64 digests |
| `Sampling.RoundedIsNear` | packages/verdict/src/verdict/agent.py:814 | rounding a digest to 53 bits moves it by at most half a unit in the last place |
| `Sampling.RoundedIsHalfEven` | packages/verdict/src/verdict/agent.py:814 | rounding is to the nearest multiple of the unit, to the even one of two; the unit is the power of two that leaves at most 53 bits, and exactly 53 where it is not 1 |
| `CaptureRecords.Emit` | packages/verdict/src/verdict/agent.py:891-924 | an emission changes nothing of the run but the latch, and never unsets it |
| `CaptureContexts.AgentRunContext.Enter` | packages/verdict/src/verdict/agent.py:796-843 | the object's fields, the context variables and the channel become exactly those of the step EnterRun |
| `CaptureContexts.AgentRunContext.Prepare` | packages/verdict/src/verdict/agent.py:797-833 | identity, parent, sampling and source are decided in the order of the source, whatever fails on the way; an empty parent id counts as none |
| `CaptureContexts.AgentRunContext.Exit` | packages/verdict/src/verdict/agent.py:845-862 | the same for ExitRun, each error leaving every field as it was |
| `CaptureContexts.AgentRunContext.Emit` | packages/verdict/src/verdict/agent.py:891-924 | the same for Emit; true is returned iff the batch was stored |
| `CaptureContexts.AgentRunContext.RecordBusinessOutcome` | packages/verdict/src/verdict/agent.py:878-889 | an outcome is recorded on the latest turn, open or closed, exactly as Record does; otherwise an error changes nothing |
| `CaptureContexts.TurnState.NewEvent` | packages/verdict/src/verdict/agent.py:247-395 | a valid event takes the next number of its turn and of its run; an invalid one takes neither |
| `CaptureContexts.TurnState.Capture` | packages/verdict/src/verdict/agent.py:397-398 | numbering and emitting together are the step Record |
| `CaptureContexts.TurnState.CaptureModelTrace` | packages/verdict/src/verdict/agent.py:400-423 | a model trace is recorded on its turn, with its id, whether or not the turn is still open |
| `CaptureContexts.TurnContext.Enter` | packages/verdict/src/verdict/agent.py:519-543 | the objects become exactly what the step EnterTurn gives, with a fresh turn state active |
| `CaptureContexts.TurnContext.Exit` | packages/verdict/src/verdict/agent.py:545-567 | the objects become exactly what the step ExitTurn gives; what that is of the response, TurnContentFollowsFromHistory says |
| `CaptureContexts.TurnContext.SetOutput` | packages/verdict/src/verdict/agent.py:575-580 | output is kept iff the turn is active and the output is text |
| `CaptureContexts.TurnContext.Tool` | packages/verdict/src/verdict/agent.py:582-595 | a tool context is made iff the turn is active and the arguments are valid |
| `CaptureContexts.TurnContext.Record` | packages/verdict/src/verdict/agent.py:597-605 | an event is recorded iff the turn is active, exactly as Record does |
| `CaptureContexts.ToolContext.Enter` | packages/verdict/src/verdict/agent.py:460-477 | the objects become exactly what the step EnterTool gives |
| `CaptureContexts.ToolContext.Exit` | packages/verdict/src/verdict/agent.py:479-498 | the objects become exactly what the step ExitTool gives |
| `CaptureContexts.ContextVars.CurrentTrace` | packages/verdict/src/verdict/agent.py:953-958 | the active turn is offered iff its run is open and it is unfinished |
| `CaptureContexts.ContextVars.Clear` | packages/verdict/src/verdict/agent.py:966-968 | both variables are empty afterwards |
| `CaptureReplay.EmitKeepsInv` | packages/verdict/src/verdict/agent.py:891-924 | an emission that memory is ready for keeps every prefix of the attempts replayable and the latch exact |
| `CaptureLog.NextKeepsInv` | packages/verdict/src/verdict/agent.py:519-567 | every operation of every task keeps the invariant that ties memory, tokens, log, latch and sampling together |
| `CaptureLog.ReachableInv` | packages/verdict/src/verdict/agent.py:742-924 | so every world any schedule reaches satisfies it |
| `CaptureTheorems.CapturedReplaysToValidBundles` | packages/verdict/src/verdict/agent.py:891-924 | the stored batches of a run are a prefix of its attempts, and every prefix of them replays to a bundle with closed references and contiguous turn, event and producer numbers |
| `CaptureTheorems.ReplayEqualsMemory` | packages/verdict/src/verdict/agent.py:537-566 | while capture has not failed, replay equals the run snapshot, every turn snapshot and the events numbered so far |
| `CaptureTheorems.AttemptsAreCapturedOrDropped` | packages/verdict/src/verdict/agent.py:898-924 | attempts equal captured plus dropped, across any sink failures |
| `CaptureTheorems.SamplingIsAllOrNothing` | packages/verdict/src/verdict/agent.py:801-815 | every run has the decision of the root of its nest, and a nest with an unsampled root attempts nothing |
| `CaptureTheorems.NextEvolvesTurn` | packages/verdict/src/verdict/agent.py:545-566 | a turn leaves UNKNOWN only by its own exit, for the status of the body's end, and its identity never changes |
| `CaptureTheorems.NextEvolvesRun` | packages/verdict/src/verdict/agent.py:845-860 | the same for a run, whose sampling decision never changes either |
| `CaptureTheorems.LateBatchesCarryTerminalTurn` | packages/verdict/src/verdict/agent.py:236-237 | after a turn has finished, every later batch that mentions it carries that same terminal snapshot, over any further schedule |
| `CaptureTheorems.LateBatchesCarryTerminalRun` | packages/verdict/src/verdict/agent.py:855-860 | the same for a finished run |
| `CaptureTheorems.ClosedTurnRejectsEvidence` | packages/verdict/src/verdict/agent.py:593-605 | no record, output or tool operation on a closed turn succeeds from any task; nothing is numbered or emitted |
| `CaptureContent.CapturedTurnsAreHonest` | packages/verdict/src/verdict/agent.py:526-562 | in every batch any schedule emits, request and response and their evidence states agree: content only if captured, a response only on a completed turn, missing only on a finished turn |
| `CaptureTheorems.CurrentTurnIsLive` | packages/verdict/src/verdict/agent.py:953-958 | a trace is attributed only to a turn active in its task, of a run that has started and carries its root's decision |
| `CaptureAnswers.AnswersFollowFromHistory` | packages/verdict/src/verdict/agent.py:430-924 | for every schedule: what each call of each task answers, each error included, follows from the calls before it and their answers alone, by a reference that never looks at the state of the machine |
| `CaptureAccount.RecordsFollowFromHistory` | packages/verdict/src/verdict/agent.py:519-567 | every run and turn snapshot is what the history says, field by field: identity, tenant, name, session, the parent (the one named, or the run around it), number, request, response, evidence states and status |
| `CaptureAccount.TurnContentFollowsFromHistory` | packages/verdict/src/verdict/agent.py:526-562 | the request of a turn is the text it was made with, and the response of a completed turn the text of the last accepted set_output, each iff content is captured; a turn that did not complete has no response |
| `CaptureAccount.LogFollowsFromHistory` | packages/verdict/src/verdict/agent.py:891-924 | one attempt for each call that begins or ends a run or turn or records an event for a sampled run, in order; its run, source, snapshots, event (kind, status, trace, call id, tool, turn, numbers) and trace are those the call gives, and it is stored iff the sink took it and none of its run was lost before |
| `CaptureAccount.ToldAreEmitting` | packages/verdict/src/verdict/agent.py:891-924 | those calls are exactly the successful ones with something to tell for a run whose decision is to sample |
| `CaptureAccount.CurrentTurnFollowsFromHistory` | packages/verdict/src/verdict/agent.py:953-958 | a turn is offered for traces iff the task is inside of it and neither it nor its run has ended |
| `CaptureNesting.FailedBeginMovesNothing` | packages/verdict/src/verdict/agent.py:797-812 | a failed enter leaves every task's active run and turn, and every token, as they were |
| `CaptureNesting.EndClosesBlock` | packages/verdict/src/verdict/agent.py:845-854 | closing the innermost block gives back the variables around it; runs and turns close without error, a tool iff its result event is valid and its turn active |
| `CaptureNesting.AdvanceKeepsNested` | packages/verdict/src/verdict/agent.py:519-567 | every step of every task keeps the stack discipline: each open block holds the tokens that restore what is below it |
| `CaptureNesting.BlocksRestoreContext` | packages/verdict/src/verdict/agent.py:845-853 | in every interleaving of well-nested tasks, a task whose blocks have ended has the active run and turn it began with |
| `CaptureNesting.ToolExitIsExact` | packages/verdict/src/verdict/agent.py:479-498 | in well-nested use the exit of a tool succeeds iff its result event is valid and its turn is active, which it is iff it is unfinished |
| `CaptureNesting.OwnToolExitIsExact` | packages/verdict/src/verdict/agent.py:479-498 | for a task that began with no active turn it succeeds iff its result event is valid |
| `CaptureNesting.BlocksCloseCleanly` | packages/verdict/src/verdict/agent.py:845-853 | in well-nested use no run or turn exit fails, so the error for an active turn at the run's end is never reached; tool exits fail exactly for an invalid result event or a finished turn, and never for the turn in a task that began with none |
| `CaptureBrackets.AdvanceKeepsBracketed` | packages/verdict/src/verdict/agent.py:460-498 | every well-nested step keeps the tool events of each turn and task in step with its open tool blocks |
| `CaptureExits.ToolEventsAreBrackets` | packages/verdict/src/verdict/agent.py:460-498 | over every interleaving of well-nested tasks, the tool events a task records on a turn are a bracket word whose open brackets are its open tool blocks, each result closing the call of the same context and call id, iff each of its exits came with a valid result event while the turn was unfinished |
| `CaptureExits.OwnToolEventsAreBrackets` | packages/verdict/src/verdict/agent.py:460-498 | for a task that began with no active turn: iff the result events of all its exits were valid |
| `CaptureExits.ClosedToolsAreBalanced` | packages/verdict/src/verdict/agent.py:479-498 | once the tool blocks have ended the word is balanced under the same two conditions |
| `CaptureForks.ForkedChildLosesResult` | packages/verdict/src/verdict/agent.py:593-595 | a concrete well-nested schedule of valid events in which a forked task closes its tool after its turn was closed, and its word is not balanced |
| `CaptureMatches.ToolEventsAreSingle` | packages/verdict/src/verdict/agent.py:460-498 | in every schedule, nested or not: every tool event carries the turn and the call id of its context, no context has two calls or two results, and none its result before its call |
| `CaptureMatches.EveryResultHasItsCall` | packages/verdict/src/verdict/agent.py:460-498 | over every interleaving of well-nested tasks, lost results included, in all the events of a run: every result comes after a call of the same context, call id and turn |
| `CaptureMatches.StoredResultsHaveCalls` | packages/verdict/src/verdict/agent.py:891-924 | the same of the events that were stored, wherever the sink failed |
| `CaptureObjects.Process.Perform` | packages/verdict/src/verdict/agent.py:742-924 | for any run, turn and tool contexts and task variables on the heap: whatever call any task makes on them is the step of the world they stand for, with its result, errors and new objects included |
| `CaptureObjects.RunProcess` | packages/verdict/src/verdict/agent.py:430-924 | objects on which any calls were made in any order stand for the world of that schedule, and so satisfy the invariant |
| `SourceMasking.OffsetsAreLineStarts` | skills/verdict-instrument-app/scripts/scan_repository.py:403-406 | the offsets are 0 and the place after every LF, in order |
| `SourceMasking.MaskSpan` | skills/verdict-instrument-app/scripts/scan_repository.py:409-419 | in place: a position becomes blank iff the span covers it and no CR or LF stands there; a span on a line that is not counted by LF fails and changes nothing |
| `SourceMasking.PythonSearchViews` | skills/verdict-instrument-app/scripts/scan_repository.py:422-473 | there are views iff every span to mask lies in the lines counted by LF, and masking raises otherwise; each view has the text's length and is blank exactly where a comment or string, or a comment or docstring, lies between its line and column positions and no CR or LF stands |
| `SourceMasking.CoversIsWithin` | skills/verdict-instrument-app/scripts/scan_repository.py:409-419 | a span covers the positions from the column of its first line up to the column of its last, lines being counted by the LFs before them |
| `SourceMasking.MaskingIgnoresOrder` | skills/verdict-instrument-app/scripts/scan_repository.py:441-471 | the same spans in any order and number give the same view |
| `SourceMasking.MaskingKeepsLines` | skills/verdict-instrument-app/scripts/scan_repository.py:409-419 | a view has the line offsets of its text |
| `SourceMasking.BisectIsLine` | skills/verdict-instrument-app/scripts/scan_repository.py:633 | bisecting the offsets at a position gives one more than the LFs before it |
| `SourceMasking.LineOfMatch` | skills/verdict-instrument-app/scripts/scan_repository.py:577-633 | the line found on the text's offsets for a match in a masked view is the line of that position in both |
| `DriftBlocks.LinesMakeText` | skills/verdict-instrument-app/scripts/scan_repository.py:483 | the lines put together are the text; a break of any of the kinds that splitlines knows ends each but perhaps the last, CR LF being one |
| `DriftBlocks.BreaksAreNewlines` | skills/verdict-instrument-app/scripts/scan_repository.py:483-525 | the lines so counted are those counted by LF iff the text has no other break |
| `DriftBlocks.FoldedHeaderIsMatch` | skills/verdict-instrument-app/scripts/scan_repository.py:494 | reading a header from its end finds a match of the header pattern iff there is one anywhere in the line |
| `DriftBlocks.BlockFrom` | skills/verdict-instrument-app/scripts/scan_repository.py:488-523 | the block of a line is the run that starts there under the continuation rule |
| `DriftBlocks.RunEndIsMaximal` | skills/verdict-instrument-app/scripts/scan_repository.py:500-523 | that run is the maximal one of at most 31 lines in which each line joins the one before |
| `DriftBlocks.DriftCommandBlocks` | skills/verdict-instrument-app/scripts/scan_repository.py:480-525 | the extractor returns the blocks of the marked lines |
| `DriftBlocks.BlocksAreMaximalRuns` | skills/verdict-instrument-app/scripts/scan_repository.py:484-525 | one block for every marked line, in order, each the maximal run of its line |
| `DriftBlocks.BlocksAreCommands` | skills/verdict-instrument-app/scripts/scan_repository.py:525 | a block's number is one more than the breaks before the place where it starts, which is its line by LF iff no other break comes before; its command is a single line |
| `DriftMeaning.CharactersAreListed` | skills/verdict-instrument-app/scripts/scan_repository.py:483-501 | white space and line breaks are the listed characters |
| `DriftMeaning.StripIsCore` | skills/verdict-instrument-app/scripts/scan_repository.py:501-525 | stripping leaves the part from the first visible character to the last |
| `DriftMeaning.JoinsAreExact` | skills/verdict-instrument-app/scripts/scan_repository.py:500-523 | a line joins its block iff it shows something, does not follow the closing parenthesis of a shell array, is not indented less under a folded header, and goes on for one of the six reasons: a backslash before it, deeper indentation, dashes, list items, a folded header, an open array |
| `DriftMeaning.BlocksAreOfLines` | skills/verdict-instrument-app/scripts/scan_repository.py:480-525 | one block for each line that mentions the runner, in order: the longest run of joining lines, at most 31, with the visible parts of its lines put together by single spaces |
| `RepositoryScan.AddMatches` | skills/verdict-instrument-app/scripts/scan_repository.py:610-638 | the matches of a rule are all added, with their lines, or the limit is exceeded |
| `RepositoryScan.AddFile` | skills/verdict-instrument-app/scripts/scan_repository.py:579-660 | everything there is to find in a file is added in order, or the limit is exceeded, or masking raises, which it does iff a span to mask lies outside of the text |
| `RepositoryScan.Scan` | skills/verdict-instrument-app/scripts/scan_repository.py:549-685 | a report is returned iff neither limit is exceeded and no span to mask lies outside of its text, and then holds all findings of all files, sorted, with their counts by support (ReportIsExact says which these are); otherwise the scan fails for the reason that comes first |
| `RepositoryScan.ReportIsComplete` | skills/verdict-instrument-app/scripts/scan_repository.py:662-665 | a finding is in the report iff it is one of some file; the counts by support sum to the length |
| `ScanMeaning.ReportIsExact` | skills/verdict-instrument-app/scripts/scan_repository.py:577-662 | the findings of a complete report match, one to one, the parse fallbacks, the matches of the rules that apply (a source rule where the language is known, a dependency rule in a manifest) in the view each searches, and the drift rules that match a block; each with the id, category, path, line, language, support, text and remediation that go with it; in the order of path, line and rule, and of discovery where these agree |
| `ScanMeaning.SearchedIsView` | skills/verdict-instrument-app/scripts/scan_repository.py:583-609 | a source rule searches a Python file without comments and strings, any other rule without comments and docstrings, and other files are searched as they are |
| `ScanMeaning.CountsAreNumbers` | skills/verdict-instrument-app/scripts/scan_repository.py:562-665 | the counts of a report are numbers of files and of findings |
| `RepositoryScan.DriftLinesAreTextLines` | skills/verdict-instrument-app/scripts/scan_repository.py:641-655 | a drift finding, found in a masked view, names the line of the file's own text where its block begins, iff only LF breaks lines before it |
| `RepositoryScan.FormFeedMovesLine` | skills/verdict-instrument-app/scripts/scan_repository.py:483-525 | a concrete text, a form feed before a command, for which the drift finding names line 2 and every other finding at that place line 1 |
| `RepositoryScan.SortedIsStableSort` | skills/verdict-instrument-app/scripts/scan_repository.py:662 | sorting by path, line and rule keeps every finding and the order of discovery of equal keys |
| `ScanMeaning.WithKeyIsSelection` | skills/verdict-instrument-app/scripts/scan_repository.py:662 | the findings of a key are those with its path, line and rule, in their order |
| `Ordering.StringLeqIsLexicographic` | skills/verdict-instrument-app/scripts/scan_repository.py:662 | strings are ordered by prefix, or by the first character in which they differ |
| `RepositoryScan.CountBySupport` | skills/verdict-instrument-app/scripts/scan_repository.py:663-665 | exactly the supports that occur are counted, each with its number |
| `RepositoryScan.EveryFileIsCounted` | skills/verdict-instrument-app/scripts/scan_repository.py:562-574 | every candidate file is counted once, as scanned, too large or unreadable; parse fallbacks are the Python files whose tokens or docstrings failed |
| `ReleaseGuard.RemoteHashes` | scripts/pypi_release_guard.py:58-83 | succeeds exactly on a non-empty list of well-formed entries of different files and returns what they say; each error names the first entry that is wrong |
| `ReleaseGuard.EntryIsExact` | scripts/pypi_release_guard.py:67-79 | an entry is a non-empty filename and a sha256 digest of 64 lower-case hexadecimal digits |
| `ReleaseGuard.MissingArtifacts` | scripts/pypi_release_guard.py:86-96 | accepts exactly if every published file is a reviewed one with its digest, and returns exactly the unpublished ones in order |
| `ReleaseGuard.StageArtifacts` | scripts/pypi_release_guard.py:99-127 | however the source changes meanwhile, success leaves exactly the requested files with their reviewed digests; a directory in use is refused untouched; it succeeds iff each file is steady when checked and copied, and fails at the first that is not, with its cause and the files before it in place |
| `ReleaseGuard.Guard` | scripts/pypi_release_guard.py:172-188 | skips iff what is published equals the build; stages the missing files iff what is published is a smaller part of it, staging is usable and every missing file stays steady; rejects otherwise, for the reason that comes first, leaving a directory in use untouched |
| `ReleaseProtocol.NextKeepsInv` | scripts/pypi_release_guard.py:161-188 | builds, runs, uploads, crashes and uploads by others keep: published files only grow, and all but foreign ones are part of the build under review |
| `ReleaseProtocol.AcceptedBuildsContainWhatWasPublished` | scripts/pypi_release_guard.py:86-96 | over any history, a build accepted at any time contains everything published at that and at every earlier acceptance, digest for digest |
| `ReleaseProtocol.UploadsStayWithinReview` | scripts/pypi_release_guard.py:172-180 | while staged files are uploaded, what is published stays part of the reviewed build, rebuilt or not |
| `ReleaseProtocol.AnswersAreExact` | scripts/pypi_release_guard.py:172-188 | the guard skips iff remote equals local, and stages iff remote is a smaller part, staging is clean and the build stays put |
| `ReleaseProtocol.RecordIsExact` | scripts/pypi_release_guard.py:172-188 | the record of acceptances has an entry for each run that skips or stages, and no other; the files of others are those published since the last |
| `ReleaseProtocol.OnlyUploadsPublish` | scripts/pypi_release_guard.py:161-188 | files are published one at a time, by others or from the staged files of an accepted build, and never replaced |
| `ReleaseProtocol.OnlyStagedRunsUpload` | scripts/pypi_release_guard.py:99-127 | after a crash, a rejection or a skip nothing is uploaded until a run stages, and none does before the runner is clean |
| `ReleaseProtocol.AnyPublishedFilesCanArise` | scripts/pypi_release_guard.py:161-188 | a run can meet any build and any published files |
| `ReleaseProtocol.UploadShrinksMissing` | scripts/pypi_release_guard.py:96 | each upload of a staged file leaves strictly fewer files missing |
| `ReleaseProtocol.ResumedRunCompletes` | scripts/pypi_release_guard.py:161-188 | from any partial release of a build one clean run and the uploads of what it staged, in any order, publish exactly the build, and the next run skips |
| `ReleaseProtocol.RunOnce` | scripts/pypi_release_guard.py:161-188 | one run of the program is one step of the protocol, steady iff the directory can be made and no missing file changes between its check and its copy |
| `DeliveryPages.MergedKeepsLatest` | ui/ControlCenter.jsx:77-78 | the rows shown have different ids and are for each id the latest received |
| `DeliveryPages.MergedKeepsOrder` | ui/ControlCenter.jsx:77-78 | and stand in the order in which their ids first came |
| `DeliveryPages.DeliveryPanel.BeginLoad` | ui/ControlCenter.jsx:56-57 | a reload starts a new generation |
| `DeliveryPages.DeliveryPanel.EndLoad` | ui/ControlCenter.jsx:64-71 | a reload commits, or reports its failure, only in its own generation |
| `DeliveryPages.DeliveryPanel.BeginPage` | ui/ControlCenter.jsx:85-90 | a page is asked for from the end of the list shown, unless one is in flight |
| `DeliveryPages.DeliveryPanel.EndPage` | ui/ControlCenter.jsx:99-109 | a page is shown, or its failure reported, only in its own generation, and frees the slot either way |
| `DeliveryPages.DeliveryPanel.BeginPost` | ui/ControlCenter.jsx:126-127 | another request of the panel takes over the busy field and clears the error, and leaves the list alone |
| `DeliveryPages.DeliveryPanel.EndPost` | ui/ControlCenter.jsx:138-139 | its end frees the busy field and reports its failure, whatever else is in flight |
| `DeliveryPages.ExtraRowsContinueTheBase` | ui/ControlCenter.jsx:83-110 | in any order of completion the base is the queue of the last committed reload, none before the first, and the extra rows are those of pages asked for against the base now shown, each from where the list then ended; at most one page is in flight |
| `DeliveryPages.ShownPageIsCurrent` | ui/ControlCenter.jsx:100-103 | a page is shown only if base, extra rows and cursor are those it was asked for; otherwise only the slot is freed |
| `DeliveryPages.OnlyNewestReloadCommits` | ui/ControlCenter.jsx:55-72 | only the reload started last can commit, commits follow the order of starts, each commit shows the queue it loaded with no extra rows, cursor or further pages known, and any other that ends changes nothing of the list |
| `DeliveryPages.FailuresAreShown` | ui/ControlCenter.jsx:69-139 | what is started clears the error, a failure that is still current is shown, and the busy field is freed by what took it |
| `DashboardLoader.Dashboard.BeginLoad` | ui/VerdictUI.jsx:118-124 | a new request is the newest, aborts the active one and shows loading |
| `DashboardLoader.Dashboard.EndLoad` | ui/VerdictUI.jsx:130-173 | each outcome changes the state only if the request is the newest; true is returned iff its snapshot is now shown |
| `DashboardLoader.Dashboard.Leave` | ui/VerdictUI.jsx:178-181 | leaving overtakes and aborts the active request |
| `DashboardLoader.SnapshotAndFilterArePaired` | ui/VerdictUI.jsx:118-150 | the snapshot and the stored offset, status, trace and date always come from one request, with the source that goes with its answer (live, a new store, or nothing yet), and answers are shown in the order of requests |
| `DashboardLoader.LoadingIsNewestUnsettled` | ui/VerdictUI.jsx:124-174 | while mounted, loading is true iff the newest request is unsettled |
| `DashboardLoader.OvertakenResponsesAreDropped` | ui/VerdictUI.jsx:148-153 | a response that a newer request or leaving has overtaken changes nothing |
| `DashboardLoader.NewestRequestIsHeard` | ui/VerdictUI.jsx:149-171 | while mounted the newest request is never aborted, and its end stops loading and shows its answer, or the error text for it beside what was shown |
| `DashboardLoader.StartKeepsWhatIsShown` | ui/VerdictUI.jsx:118-128 | a request that starts shows loading, clears the error, aborts the active one and leaves what is shown |
| `DashboardLoader.AbortedRequestsAreSilent` | ui/VerdictUI.jsx:153 | a request that ends by its own abort shows nothing |

## Left out

- Redaction, validation of evidence records, storage and transport: an arbitrary sanitizer, flags that say whether a record is valid, and a sink that stores a batch whole or raises and stores nothing.
- Hashes, random ids, clocks, log messages and JSON text: ids are keys that do not repeat, digests are opaque, times are absent, and the size check of bounded values is a predicate that may raise.
- Runs that share an external id: a run is identified by its context, so what is said of a run's batches is said of one context's.
- CaptureAccount.LogFollowsFromHistory: random event ids are not among what it says of an event, times and attributes are absent, and text stands for what the sanitizer leaves of it.
- The order of random event ids: replay identifies events by the order in which they were drawn.
- Races of threads on the capture latch and on the open and closed checks, which the source does not lock; EventNumbering covers what it locks.
- Exits out of nesting order from several contexts at once keep the invariants of CaptureTheorems, but nothing is said about which context is then active.
- Clearing the context variables while a run is open is an operation of ContextVars only, not of the schedules.
- CaptureObjects.Process.Perform: one call at a time; a call on an object that was never made is an answer of the model alone.
- Longer cycles of parent runs; the source rejects only a run that is its own parent.
- BoundedTwice.BoundTwice: one way for a single value, since a value whose keys lose their order may still be too small to be cut; KeyOrderIsExact gives, for each limit in use, the condition on keys that is exact over all items.
- The attributes of the record_ methods, exception evidence and the configuration fingerprint.
- Python's tokenizer and parser, that columns of docstrings count bytes, and regular expressions other than the YAML header: spans in the text and matches are inputs.
- RepositoryScan.Scan: walking directories, reading and decoding files are inputs; the limitations list and the key order of the counts are not modelled.
- Command lines, HTTP, environment variables, the check that a build is one wheel and one source archive, and rendering.
- DeliveryPages, DashboardLoader: state updates are atomic and handlers see the present state; form fields, charts and the choice of request arguments are absent.
