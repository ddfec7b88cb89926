# Quail's self-contained algorithms, verified

Quail answers queries over tables of documents with a language model. Several of its algorithms stand
on their own, and each makes a strong claim that rests on loops, state or arithmetic. This project
models them in Dafny and proves the claims for every input, every run and every behaviour of the engine
below them.

- **Request scheduling.** `Requests` models an engine as an adversary. It keeps the outstanding requests,
  and a script of turns decides each step: raise, or look at what is held and emit any finished and
  unfinished outputs in any order. Quantifying over scripts quantifies over engines. `Retrying` is the
  view that reruns requests whose rows came from the prefix cache, `Engines` is whatever the schedulers
  call an engine, and `DecisionClient` is the client that pools prompts. `EngineLog` reads an engine's
  history: what was queued, shown and finished, in order. `FilterTask` gives the scheduler without request
  ids: admissions and completions in any order. `FilterScheduling`, `AsyncFilter`, `OperatorFilter`,
  `PipelinedFilter` and `ExtractScheduling` are the schedulers, `FilterLog` and `ExtractLog` say what the
  engine's events may be in a run, and `DocumentCaps` and `KvBudget` are about the caps.
- **Label decoding.** `LabelTries`, `Decoding` and `Reading`: the token trie of the labels, its forced
  paths compressed into runs, and the nodes that are read.
- **Joins.** `PairIndex`, `JoinRows`, `JoinRequests`, `GenerateAnswers` and `JoinAssembly`: grouped row
  indices, and rows, prompts and answers kept aligned through permutations.
- **Profiles.** `TraceIntervals`, `CallTree`, `Nesting`, `Flamegraph`, `KernelLanes` and `StreamLanes`: nested
  intervals turned into a tree that accounts for every tick, and greedy lanes.
- **Trace compaction.** `TokenEstimate`, `TraceMessages`, `StateHistory`, `StateTexts`, `StateBudget`,
  `TraceCalls`, `TraceAcceptance`, `Reconstruction` and `Retention`: fitting a state into a token budget,
  pairing calls with results, and rewriting a trace.
- **Chunked recurrences.** `Packing`, `CausalConv`, `GatedDelta` and `Pooling`: sequences packed back to
  back and fed in parts, with the state carried across.
- **Resumable labeling.** `MatchingPairs`, `LabelJudge`, `LabelVolume`, `LabelSession`, `LabelCompletion`,
  `LabelCompaction`, `LabelRows`, `Labeling`, `LabelWriters` and `LabelWorkload`: a volume is a map from paths to files,
  changed by atomic replacements, and a session may die before any of them.

Code that changes things step by step is imperative here: the engine, its views, the client, the filter
sequence and the row groups are classes, and the schedulers are loops proved against specification
functions. A request id is a datatype: `Numbered(d, s)` stands for the id made of a tag, a document and
a stage, and `Recompute(x)` for the rerun of x. The model is a function of the prompt alone. Token
costs are counted in tenths, text is a sequence of UTF-16 code units, and times are whole ticks.

Liveness is stated against engines that help. A turn is productive when, whatever the engine holds, it
finishes one of the caller's requests whenever there is one, and the caller can read it;
`Requests.FinishingAnswers` shows that such turns exist. For the retrying view a turn must also leave
other users' requests alone and keep the rows of requests that skip the cache.

## Model

| member | source | states |
|---|---|---|
| `Flamegraph.AggregateIntervals` | experiments/profile_flamegraph.py:10-78 | Raises exactly when some event outlasts, by more than the tolerance, where the events it starts inside cut it; that takes two events that cross by more than the tolerance, and without tolerance any two that cross do. Otherwise the frames, read as paths of names, are the paths at which the cut events open, each once; the frame at a path has the time that path is active, on and off the GPU, as own time the time it is innermost, and as calls the events that open there; children come longest first, the gap among them. So the two later checks cannot fail, and own times add up to the duration. |
| `Flamegraph.OwnTime` | experiments/profile_flamegraph.py:49-70 | A frame's time minus its children's is exactly the time during which its path is the active one, on and off the GPU. |
| `TraceIntervals.MergeIntervals` | experiments/trace_intervals.py:6-16 | The merged intervals are disjoint, in order, and cover exactly what the given ones cover. |
| `TraceIntervals.OverlapIsCovered` | experiments/profile_flamegraph.py:11-27 | The prefix-sum difference is the number of covered ticks between two times. |
| `KernelLanes.AssignLanes` | experiments/cells/profile_query.py:173-184 | On one stream: every event is kept and is in the lowest lane that is free when it starts, events in one lane do not overlap, no lane is empty, and when all events last there are as many lanes as events are active at once, no more. |
| `StreamLanes.AddLanes` | experiments/cells/profile_query.py:157-188 | Stream by stream: events of one stream that overlap are in different lanes; when the stream's events all last, lane l is used only if more than l of them are active at once; other events stay; and each lane beside the first that an event is in is named exactly once. |
| `FilterScheduling.RunFilterSequence` | quail/baselines/request_scheduling.py:131-198 | Over any engine, plain or retrying: a run that returns has the reference answers, survivors and counts; however it ends, no request of the run stays, and every engine event since the start is in order: documents are admitted one after the other, while fewer than `filter_document_cap` admitted ones are unsettled and, before each step, as long as that is so; a later stage is queued once its predecessor was answered TRUE; a rerun once its request finished without its rows. A turn per cell that answers something makes it return, two with reruns; a limit of zero never returns. |
| `FilterLog.SequencesBounded` | quail/baselines/request_scheduling.py:55-81 | At every point of a run, its requests in flight are at most its unsettled documents, those at most the cap, and that at most the engine's limit. |
| `FilterLog.OneInFlight` | quail/baselines/request_scheduling.py:172-188 | At every step of a run, each unsettled document has exactly one request in flight: its latest stage, or the rerun of that. |
| `FilterTask.RunsAgree` | quail/baselines/request_scheduling.py:166-188 | Two finished runs agree on every reported field, whatever the orders of completion and the caps. |
| `FilterTask.CompletionDecreases` | quail/baselines/request_scheduling.py:181-188 | Each completion answers exactly one of the unanswered cells. |
| `FilterTask.NoDeadlock` | quail/baselines/request_scheduling.py:172-188 | In every reachable state an unfinished run has an event that can happen exactly when the cap is positive. |
| `FilterTask.FinishedIsReference` | quail/baselines/request_scheduling.py:110-119 | A finished state holds exactly the answers, survivors, request count and prompt tokens that asking question by question gives. |
| `AsyncFilter.RunFilterSequenceAsync` | quail/baselines/request_scheduling.py:323-356 | Under every interleaving of the workers the result is the reference exactly when a worker can start or there is nothing to do; it returns within as many wakes as cells and workers when each wake lets one go on. However it ends, there are as many workers after every wake as the cap and the documents allow, and what they await is in flight in some state the scheduler can reach under that cap. |
| `AsyncFilter.AwaitsWithinCap` | quail/baselines/request_scheduling.py:323-356 | So the workers await requests of different documents, each one of a stage whose predecessors are all TRUE, and no more than the cap. |
| `OperatorFilter.OperatorAtATimeFilter` | quail/baselines/operators.py:36-85 | Through the decision client on any engine: a run that returns reports the reference answers and stage counts, and an engine that keeps answering makes it return. |
| `PipelinedFilter.PipelinedFilter` | quail/baselines/operators.py:88-138 | A finished run reports what the operator-at-a-time filter reports, stage counts included, exactly when there is a document. |
| `PipelinedFilter.ShiftDownReference` | quail/baselines/operators.py:104-137 | Counting stages from 0 instead of 1 turns one reference result into the other. |
| `KvBudget.FitsIffLargestFit` | quail/baselines/request_scheduling.py:55-81 | Every reachable state's live requests fit a budget exactly when the largest requests the cap admits together do. |
| `KvBudget.EqualSizesFit` | quail/baselines/request_scheduling.py:55-81 | With documents of one rounded size, live requests need at most the budget, or one document if that is more. |
| `KvBudget.RunFits` | quail/baselines/request_scheduling.py:55-81 | So it is at every point of every run of the scheduler, read off the engine's events. |
| `KvBudget.RunNeeds` | quail/baselines/request_scheduling.py:131-198 | At every point of every run, the unsettled documents, which include all with a request in flight, need no more than the largest the cap admits together. |
| `DocumentCaps.SizesHold` | quail/baselines/request_scheduling.py:64-76 | A document's size is whole blocks that hold it with any question and the answer token, and less than a block more than the longest question needs. |
| `DocumentCaps.FieldsHold` | quail/baselines/request_scheduling.py:219-225 | The fields' blocks hold each tail with its longest answer, with at least a block to spare for each field and at most two. |
| `KvBudget.UnequalDocumentsExceed` | quail/baselines/request_scheduling.py:74-81 | A reachable state of three documents needs 11 tokens of a budget of 8. |
| `KvBudget.LiveReachable` | quail/baselines/request_scheduling.py:172-188 | Any documents within the cap are the live ones of some reachable state. |
| `DocumentCaps.FilterCapPositive` | quail/baselines/request_scheduling.py:55-81 | The cap is zero exactly for an engine limit of zero, and never above the limit. |
| `Retrying.RetryingEngine.Step` | quail/baselines/vllm_decision.py:141-159 | Each delivered output answers a request of the view under its original id, with its rows; a request without rows is rerun once; it raises exactly when the engine does, when somebody else's request finishes, or when a run without the prefix cache lacks rows; a productive turn delivers or reruns something. |
| `Retrying.StrangerFails` | quail/baselines/vllm_decision.py:141-159 | Any request of somebody else's in the engine can make the view raise: it is enough that it finishes. |
| `Retrying.SentAtMostTwice` | quail/baselines/vllm_decision.py:115-159 | A request of the view reaches the engine at most twice: once, and once as a rerun. |
| `Retrying.RetryingEngine.AbortRequest` | quail/baselines/vllm_decision.py:132-139 | Aborting takes the requests and their reruns out of the engine. |
| `DecisionClient.Client.Generate` | quail/baselines/vllm_decision.py:183-196 | Output i answers prompt i; the client leaves nothing in the engine when it returns, and returns readable outputs within two turns per prompt when turns help. However it ends, the engine holds what it held, and of the client's requests and their reruns, each of which it was sent, those that have not finished since; that is all of them when it raises at once. |
| `EngineLog.HeldUnfinished` | quail/baselines/vllm_decision.py:115-159 | An engine that aborts nothing holds a request exactly when it was queued and has not finished since, or was held before and has been neither queued nor finished. |
| `Requests.EveryLegalBatch` | quail/baselines/request_scheduling.py:179-182 | The adversary can make the engine emit any batch of outputs for requests it holds, each finishing once. |
| `Requests.FinishingAnswers` | quail/baselines/request_scheduling.py:178-188 | A turn that finishes everything of a user's is one that helps. |
| `ExtractScheduling.RunExtractFields` | quail/baselines/request_scheduling.py:232-320 | Every (document, field) cell is sent once and filled with the output of its own prompt; every event since the start keeps to the cap, to the order of documents and to one field before the others; however the run ends, nothing of it stays; an engine that finishes something in each turn makes it return. |
| `ExtractLog.FieldsInFlight` | quail/baselines/request_scheduling.py:274-316 | At every step of a run, an admitted document has only its first field in flight until that shows an output, and exactly its unfinished fields from then on. |
| `ExtractLog.LiveBounded` | quail/baselines/request_scheduling.py:265-316 | At every point of a run, the admitted documents with an unfinished field are at most the cap. |
| `ExtractLog.LiveFits` | quail/baselines/request_scheduling.py:202-229 | With documents of one size, body and fields, those live at any point of a run need at most the budget, or one document if that is more. |
| `ExtractLog.SequencesBounded` | quail/baselines/request_scheduling.py:202-229 | At every point of a run, requests in flight are at most the engine's limit when that is at least the number of fields. |
| `LabelTries.LabelTrie` | quail/labels.py:31-46 | The trie holds exactly the proper prefixes of the labels, each with its next tokens in order. |
| `LabelTries.DecodableLeaves` | quail/labels.py:19-28 | For decodable labels the labels are exactly the nodes without children. |
| `LabelTries.ChoiceNodesSplit` | quail/labels.py:79-86 | A choice node is a node at which two labels go on by different tokens. |
| `Decoding.SplitRuns` | quail/labels.py:147-179 | No choice node is looked up before it has been reached; the runs, hops and needs recorded are those of the trie. |
| `Decoding.FedExactlyOnce` | quail/labels.py:147-179 | The runs feed each node on the way to a choice exactly once, and their total length is the number of such nodes less the root. |
| `Decoding.DecodeIsDescent` | quail/labels.py:159-202 | For every choice made at choice nodes, following the hops ends at the label that token-by-token descent ends at, and that label's runs spell it up to its last choice. |
| `Decoding.DecodeRoundTokens` | quail/labels.py:182-202 | Each label's list is what descent to it feeds: the cue and the way to the first choice on the label's path, then from each choice to the next; some list is as long as the rounds. |
| `Decoding.LongestLabel` | quail/labels.py:147-202 | The number of rounds is the length of the longest list of rounds. |
| `Reading.ReadNodes` | quail/labels.py:89-115 | Whatever the flags, the root and every split and inner label end are read, and any other node read goes on from one that is, by a token a label does not flag; with flags that depend on the tokens so far, exactly those that hold for some label are. |
| `Reading.WordStartsFlags` | quail/labels.py:49-75 | The flags of `word_starts` depend on the tokens so far alone. |
| `Reading.LeastRead` | quail/labels.py:89-115 | They are the least set with the root, every split and inner label end, closed under words going on. |
| `Reading.ReadAnyOrder` | quail/labels.py:89-115 | When word starts depend on the prefix alone, the order of the labels does not matter. |
| `Reading.NoFlagsReadAll` | quail/labels.py:89-115 | Without flags every node of the trie is read. |
| `PairIndex.RowGroups.Get` | quail/catalog/pairs.py:163-168 | The rows of one key, in input order. |
| `PairIndex.RowGroups.Take` | quail/catalog/pairs.py:170-182 | The gather by repeats and running sums is the concatenation of the rows of each supplied key, repeated and missing keys included. |
| `PairIndex.AllowedMembersByAnchor` | quail/baselines/operators.py:434-440 | Per anchor, sorted member indices, each as often as the pair table lists its pair. |
| `PairIndex.AllowedOnce` | quail/catalog/pairs.py:198-200 | From a table without repeats, exactly the members whose pair it lists, once each. |
| `JoinRequests.RunJoinGrouped` | quail/baselines/request_scheduling.py:359-432 | Under either submission order answer i is that of pair i's own prompt; turns that help make it return. |
| `GenerateAnswers.SendAnswers` | quail/baselines/operators.py:280-311 | Whatever order the prompts are sent in, output b of spec q answers body b with spec q's tail. |
| `JoinAssembly.ExecuteJoin` | quail/baselines/execution.py:270-406 | The rows are the surviving cross product restricted to the pair table, anchor by anchor, each as often as it can be picked; each answer is that of its own row's prompt; the survivors follow; turns that help make it return. |
| `JoinRows.CrossCounts` | quail/baselines/execution.py:304-382 | How often a row is asked is the product of how often its documents survive and its pair is listed. |
| `JoinRows.RowsDistinct` | quail/baselines/execution.py:372-382 | From distinct survivors and a table without repeats no row is asked twice. |
| `JoinRows.SuffixHolds` | quail/baselines/execution.py:323-337 | A question's suffix holds every partner's label and document, in the order of the partners. |
| `JoinAssembly.SemiAntiPartition` | quail/baselines/execution.py:391-406 | On one input the semi and the anti join split the anchor's survivors between them. |
| `TokenEstimate.EstimateTokens` | demos/agent_trace_compaction.py:127-137 | The piecewise loop computes the cost of the text, rounded up. |
| `TokenEstimate.CostSubadditive` | demos/agent_trace_compaction.py:127-137 | Putting texts together never costs more. |
| `StateBudget.BuildState` | demos/agent_trace_compaction.py:210-320 | It returns the first form of the history within budget, the least reduced first, and refuses when none fits; the count is the base and the current sizes, bounds the estimate of the whole state, and no pinned message is given up. Stage by stage it says what each entry's text and calls are, which messages are shown, and that a stage reaches the entries not pinned first and the older first. |
| `StateTexts.PinnedLast` | demos/agent_trace_compaction.py:253-272 | A pinned message is abridged only when no long message that is not pinned is shown whole; a reduced text is the first 400 and last 150 units around a count of the others, or a note of the message's length. |
| `TraceMessages.DecimalReads` | demos/agent_trace_compaction.py:256-272 | The digits in a note stand for the number they were made from, without a leading zero. |
| `StateBudget.LeastReduced` | demos/agent_trace_compaction.py:230-320 | The full state is returned exactly when it fits, otherwise the first form that fits, and nothing exactly when no form does. |
| `StateBudget.MergedLines` | demos/agent_trace_compaction.py:303-317 | Merging gives up no line of the compacted calls, and keeps their order. |
| `TraceCalls.CollectToolCalls` | demos/agent_trace_compaction.py:159-190 | Accepted calls come in the order they were made, each before its result, which is what the message says; every result belongs to one. |
| `TraceAcceptance.AcceptedIff` | demos/agent_trace_compaction.py:159-190 | A trace is accepted exactly when ids are new, arguments are objects, and each result ends a call of its own made before it: the one it names, or else the only one not ended. |
| `Retention.ReconstructTrace` | demos/agent_trace_compaction.py:323-362 | It refuses exactly when a call that is not pinned lacks an answer. Otherwise a result whose own question is TRUE stays as it is; one with only the call's question TRUE stays with its first 300 units and a count of the others when it is longer than 420; with both FALSE call and result go; pinned calls are untouched; and the messages kept are the others, in order. |
| `Reconstruction.ReadAgain` | demos/agent_trace_compaction.py:323-362 | When tool messages make no calls, reading the kept messages again succeeds and finds exactly the calls not dropped, in order, each before its result, with the result the decision left. |
| `Reconstruction.ReadAgainIff` | demos/agent_trace_compaction.py:323-362 | For every accepted trace that holds exactly when no call that stays loses one of its two messages: the one that makes it is no dropped call's result, and the result message is not left without calls and content. |
| `Reconstruction.NeverLonger` | demos/agent_trace_compaction.py:365-369 | The characters of the kept messages never exceed those of the trace, notices included. |
| `Reconstruction.CallsLostWithResult` | demos/agent_trace_compaction.py:323-362 | A trace of ten messages, none of its calls pinned, whose replies drop the first call and keep the second, which the first one's result makes: what is left is refused when read again. |
| `CausalConv.Filter.ConvSplits` | experiments/hybrid.py:14-76 | Feeding a sequence in two parts, the first part's tails being the second's history, gives the outputs and tails of one pass, wherever it is split. |
| `CausalConv.CausalConvReference` | experiments/hybrid.py:14-59 | Every packed sequence gets the outputs and tails it has alone, with its own history or zeros; it raises exactly when there are sequences without any row, and tails to take. |
| `CausalConv.ConvTails` | experiments/hybrid.py:62-76 | The tails are the last rows of each sequence behind its history, also where it is shorter than the filter, unless there is no row at all. |
| `CausalConv.Filter.TapsWeighted` | experiments/hybrid.py:14-59 | An output is the sum of the window's rows, the oldest first, by the weights in their order. |
| `GatedDelta.Rule.RunSplits` | experiments/hybrid.py:79-119 | Feeding a sequence in two parts, the first part's final state starting the second, gives the outputs and final state of one pass. |
| `GatedDelta.GatedDeltaReference` | experiments/hybrid.py:79-119 | Every packed sequence gets the outputs it has alone, and its state in place becomes the final state it has alone. |
| `GatedDelta.DocumentedRule` | experiments/hybrid.py:79-119 | The loop's decay, prediction and write are the documented product with I - beta k k^T and the outer product added to it. |
| `GatedDelta.Rule.HeadsRepeat` | experiments/hybrid.py:79-119 | Each key head serves the value heads next to each other that it is repeated for. |
| `Pooling.PoolDecisionRows` | quail/baselines/vllm_decision.py:46-96 | Each request of a step gets what its own rows decide, whichever requests share the step, and keeps its own trailing rows. |
| `Pooling.ChunksDoNotMatter` | quail/baselines/vllm_decision.py:46-96 | For every split into chunks a finished request gets the scores of the rows at its offsets in all its rows, and NaN exactly when it has fewer rows than the largest offset needs. |
| `Pooling.PickedNamed` | quail/baselines/vllm_decision.py:46-96 | An offset names the row that has as many rows after it. |
| `MatchingPairs.MatchingExact` | bench/labeling.py:278-293 | The pairs are exactly those whose columns agree and whose rows pass the conditions, each once, in nested-loop order. |
| `MatchingPairs.AskedAppend` | bench/labeling.py:278-293 | The pairs of two batches, the second's shifted to its place, are the pairs of their rows together. |
| `LabelJudge.FilterExact` | bench/labeling.py:604-624 | A filter over an engine that reports true answers raises exactly when a row has none, and otherwise gives each row its own. |
| `LabelJudge.JoinExact` | bench/labeling.py:626-680 | Over an engine whose replies satisfy the query, a join raises exactly when some pair went unanswered; otherwise it answers exactly the pairs of the whole tables, mapped back from the rows that pass. |
| `LabelSession.BoundsTile` | bench/labeling.py:464-484 | The part ranges follow one another over the left table, none empty. |
| `Labeling.SplitIff` | bench/labeling.py:153-194 | A predicate can be split into parts unless it is a join over an empty right table without pair columns and without its own pair count; a part has one left row, or no more than a call has room for. |
| `LabelWriters.WriteParts` | bench/labeling.py:751-847 | Each of the three writers labels range after range, leaves saved parts alone, and stops where the judge raises or the session dies. Each part it wrote says what it is to say: a filter's row k has row k's id and its answer; a join has one row for each asked pair, with its two ids and the source's label and origin where there is one, else the engine's reply for that pair as the model's. |
| `LabelRows.PartsSay` | bench/labeling.py:751-847 | When the judge answers every batch, every part of the plan gets rows, and they say what they are to say. |
| `LabelWorkload.JudgeWorkload` | bench/labeling.py:1050-1100 | A session takes the workload's steps from the front: it ends with all of them done, where a step raises, or where it dies, which it does only when its life is spent. Every part it wrote says what it is to say. |
| `LabelWriters.ProgressRuns` | bench/labeling.py:1050-1100 | What a session leaves is what its first steps leave, and one that does not die raises exactly when the steps do. |
| `LabelVolume.ResumesAlways` | bench/labeling.py:1050-1100 | After any number of sessions that died or raised, anywhere, a session ends with the files of one never interrupted, and raises just when that does. |
| `LabelCompletion.SessionCompletes` | bench/labeling.py:953-974 | When the judge answers every batch, every label set completes, and its compacted file is its parts' rows one after the other. |
| `LabelCompaction.CompactedRightIff` | bench/labeling.py:512-533 | After a session that succeeds every compacted file has as many rows as expected; it holds the rows of the saved parts and those the judge gave for the others exactly when there was no such file before, or it held them already. |
| `LabelCompaction.WrongCompactStays` | bench/labeling.py:512-533 | A session over a volume with a wrong compacted file of the right length succeeds and keeps it. |
| `Labeling.ResumedComplete` | bench/labeling.py:751-974 | When the judge answers every batch, labeling resumed over a fresh volume after any deaths ends as if uninterrupted, each compacted file holding as many rows as `_expected_rows` says. |

## Findings

Where the code does not do what its documentation or names suggest, the model follows the code.

- `pipelined_filter` with no documents reports no stages, where `operator_at_a_time_filter` reports one
  row of zeros per question. The two agree exactly when there is a document
  (`PipelinedFilter.PipelinedFilter`).
- An engine limit of zero makes the document cap zero. The step loop then never admits a document and
  never returns while there is one (`FilterScheduling.RunFilterSequence`), and the async run starts no
  worker and returns an empty result at once (`AsyncFilter.RunFilterSequenceAsync`).
- The document cap divides the budget by the mean size, so documents of unequal size can exceed the KV
  budget. They stay within it exactly when the largest requests admitted together do
  (`KvBudget.FitsIffLargestFit`, with a concrete run in `KvBudget.UnequalDocumentsExceed`).
- The retrying view raises on a finished output of a request that is not its own: a step raises exactly
  when the engine does, when a stranger's request finishes, or when rows are missing from a run without
  the prefix cache (`Retrying.RetryingEngine.Step`, `Retrying.StrangerFails`). `generate` aborts nothing
  when it raises: exactly those of its requests and reruns stay in the engine that have not finished
  (`DecisionClient.Client.Generate`).
- A tool message that makes calls of its own takes them along when its call is dropped, and the kept
  trace cannot be read again (`Reconstruction.CallsLostWithResult`). It can exactly when no call that
  stays loses one of its messages (`Reconstruction.ReadAgainIff`); the recorded format has no tool
  messages that make calls, so there it always can (`Reconstruction.ReadAgain`).
- A label set without its own pair count divides by the size of the right table, and raises when that is
  empty: exactly such a predicate has no parts (`Labeling.SplitIff`).
- A compacted file that is already there is checked by its number of rows alone and kept whatever the rows
  are (`LabelCompaction.WrongCompactStays`). After a session it is right exactly when it was absent or
  right before (`LabelCompaction.CompactedRightIff`); over a fresh volume it always is.
- The convolution's tails index the packed rows even when there are none, and raise
  (`CausalConv.ConvTails`).

## Left out

- Times, costs, throughput, cached-token counts and the settings echoed in results.
- An engine that raises is the end of a script. A loop that would run forever, as with a limit of zero, is
  a run that never returns: it consumes every turn of every script.
- Tags of request ids: ids of two callers never coincide.
- The choice of an anchor by mean length, submission by text instead of token ids, and the answer tables
  of joins and filters as columns. One join is modelled, with its anchor given; the loop over joins
  passes the survivors on.
- JSON itself. A writer turns an entry or a call into text, any text, and the header of a state ends in
  the bracket that opens its history.
- Message contents that are not text, and answers that are not Boolean, which count as missing.
- Flamegraph.AggregateIntervals: for events within the window, to which the reader of a profile cuts them.
- Reading.ReadNodes: for flags that are not a function of the tokens so far, which nodes are read also
  depends on the order of the labels; of such flags only the reasons for reading are stated.
- LabelWorkload.JudgeWorkload: for predicates that can be split; a session that comes to a join that
  cannot raises there.
- Of labeling: a judge that answers the same rows differently in another session, hashes and content ids,
  which are opaque and distinct, the sample that is asked again, and the reuse and copying of label sets.
  Row ids are ranked as text.
- Of the recurrences: casts between number types. Normalization, the exponential, the activation and the
  decision head are functions of their inputs, numbers are reals, and a hidden row is known by identity.
- Event times are whole ticks, where the profile uses floating point.
- Numbers that the profile and the estimate hold as floats are exact.
- Equality of join keys is given, and the casts of key columns are not modelled.
