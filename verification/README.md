# The session log and the run loop

A session of the agent is an append-only log of records: a header, messages, skill activations and compaction
entries. Two readers rebuild a conversation from it: `build_active_path` for the model's context and `build_view` for
the user interface. One writer, the executor of a run, appends to it while a provider streams, tools run, storage
fails and somebody cancels. This project models the readers, the writer and the parts attached to them, and proves
what holds between them.

The modules, from the bottom up:

- `Protocol`, `History`, `Slots`, `Budget`: the records, what a log says independently of any reader, sequences kept
  as numbered slots, and the token estimate.
- `ActivePath`, `SessionView`: the two readers as loops over vectors and maps, each proved against a closed definition
  (`Path`, `ViewMessages`).
- `PathFacts`, `ViewFacts`: what holds of the readers on every log: where skill notes stand, how long the path is, and
  exactly when the two readers agree.
- `ReachableLog`, `ReachablePath`, `CompactionEffect`: the logs that runs can produce, the invariant nobody states
  (compacted messages are a prefix tiled by consecutive blocks), and what one more compaction does to path and tokens.
- `Runtime`: the adversary. The store, the provider and the tools do anything their contract allows, and other tasks
  and a cancellation can come in between those operations.
- `CompactionService`, `Runner`: the code that runs: classes whose methods update their fields, with `DeltaBuffer`,
  `StreamState`, `RunExecutor` and `SessionRunner` as in the source. `RunTrace` is the automaton of a run's events,
  `RunRecord` relates a trace to the log, `Rebuild` says what the next run sees of it, `LlmContext` builds the request,
  and `Presented` says what the messages of path and request tell the model.
- `Exclusion`: every interleaving of any number of senders, cancellers and activations on one runner. It proves what
  `Runtime` takes for granted: while a run holds the session, other tasks add skill activations at most.
- `SkillCache`, `ToolChunks`, `Reducer`, `SessionFile`: the skill list in memory, merging tool-call fragments, the
  client's fold over a run's events, and the log as lines of a file. `LineCodec` is an encoding of records that meets
  what `SessionFile` asks of one.
- `CancelledRuns`, `EmptyCallId`: runs on which documented behaviour fails.

A path item remembers what it stands for (`Kept`, `Pointer`, `Note`, `Digest`), so that a synthetic skill message is
never mistaken for the user's; `Render` gives the message the model sees. What that message must say is stated apart
from `Render`, as `Presented.Conveys`.

Where the code differs from its documentation, the model follows the code:

- `docs/adr/0020-cancellation-partial-message-semantics.md:15` promises exactly one `RunCancelled` for a cancelled
  run. `Runner.RunExecutor.Run` says when that holds: a run that ends as cancelled emits one exactly when it has asked
  the provider and its last request has had the start of an answer, and none otherwise. `CancelledRuns.SilentCancel`
  is such a silent run, carried out by the executor.
- A run whose token is cancelled does not always end as cancelled. A cancellation during compaction makes it fail
  (`crates/byte-core/src/runner.rs:505-513`), and one that comes after its last response, while the runner is not free
  yet, is not noticed (`crates/byte-core/src/runner.rs:607-609`, `crates/byte-core/src/runner.rs:388-389`). Where
  storage, provider and tools do their part, a run ends as cancelled exactly when it saw the cancellation when it last
  looked and no compaction failed; one cancelled before it begins, exactly when its path is below the compaction
  threshold (`Runner.RunExecutor.Run`). `CancelledRuns.CancelledYetFailed` and `CancelledRuns.CancelledYetSucceeded`
  are runs that end otherwise.
- A cancellation right after a reply with tool calls leaves all of them without a result in the log
  (`crates/byte-core/src/runner.rs:611-615`); `CancelledRuns.CallsLeftUnanswered` is such a run.
- The view and the path are meant to show the same conversation. For arbitrary compaction entries they do so exactly
  when the blocks of the resolvable entries are disjoint (`ViewFacts.ViewAgreesExactlyWhenDisjoint`), which every
  reachable log satisfies; `ViewFacts.OverlappingBlocksDisagree` is a log on which they differ.
- A compaction that does not help has already written its entry (`crates/byte-core/src/compaction.rs:329-339`;
  `CompactionService.RecordEntry`).
- The token estimate is documented as four characters to a token and counts bytes
  (`crates/byte-core/src/session/budget.rs:9-17`, `crates/byte-core/src/session/budget.rs:48-61`); the two are the same
  exactly for ASCII text (`Budget.BytesOfCharacters`).
- The client that follows the events shows each completed text twice (`apps/desktop/src/store/reducer.ts:283-296`);
  it agrees with the loaded text exactly for an empty one (`Reducer.CompletionRepeatsTheText`).
- The output of a tool call is the same for a client that follows the events and for one that loads the session
  exactly when the call's id is not empty (`Reducer.LiveAgreesWithLoaded`): loading skips an empty id
  (`apps/desktop/src/store/reducer.ts:148-153`), which a provider can send. `EmptyCallId.OutputsCanDiffer` is a log
  and a run on which they differ. A call whose last result was an error is shown as failed by the client that follows
  the events, and as complete by the one that loads the session (`apps/desktop/src/store/reducer.ts:131-141`).
- The skill list in memory follows the log for activations made one after the other. Two that cross leave it right
  exactly in the cases `SkillCache.CrossedUpdates` lists (`SkillCache.CrossingFails` is one where it is wrong), and a
  log that cannot be read counts as an empty one, which is right exactly when no other skill was active
  (`SkillCache.RunnerPool.RecordSkillActivation`).

## Model

| member | source | states |
|---|---|---|
| ActivePath.BuildActivePath | crates/byte-core/src/session/active_path.rs:39-156 | with unique message ids the result is `Path`: slot by slot the summaries of the blocks that begin there, the skills first activated there, and the message unless it is covered |
| ActivePath.IndexMessages | crates/byte-core/src/session/active_path.rs:40-48 | the position map and the ordered ids are those of the log's messages |
| ActivePath.MarkCompacted | crates/byte-core/src/session/active_path.rs:177-198 | exactly the ids between the two ends join the set, whichever end is older; an unknown end adds none |
| ActivePath.MarkAll | crates/byte-core/src/session/active_path.rs:50-61 | the marked ids are those of the covered messages |
| ActivePath.CollectActivateSkillCalls | crates/byte-core/src/session/active_path.rs:159-175 | the loop over the log builds the map of `activate_skill` calls |
| ActivePath.SkillCallsAreTheLatest | crates/byte-core/src/session/active_path.rs:159-175 | a call id is in that map exactly when some `activate_skill` call carries it, with the name in the latest such call |
| ActivePath.WalkEntries | crates/byte-core/src/session/active_path.rs:80-129 | path and positions are the slots of the walk laid end to end, skills refreshed in place |
| ActivePath.SpliceSummary | crates/byte-core/src/session/active_path.rs:135-153 | inserting at the first position at or after the oldest message puts the summary in front of that slot, and keeps both vectors equally long |
| ActivePath.SpliceSummaries | crates/byte-core/src/session/active_path.rs:131-155 | splicing every summary turns the walk into `Path`, for any ranges |
| Slots.InsertionPoint | crates/byte-core/src/session/active_path.rs:144-151 | the position search finds where the slots before the block end |
| Slots.IndicesSorted | crates/byte-core/src/session/active_path.rs:83-151 | the parallel positions never decrease |
| PathFacts.PathLength | crates/byte-core/src/session/active_path.rs:80-155 | for every log: path length = uncovered messages + resolvable compactions + distinct skills |
| PathFacts.SkillsSurvive | crates/byte-core/src/session/active_path.rs:82-128 | for every log, whatever is compacted, the skill notes of the path are exactly the recovered skills in order |
| History.ActiveSkillsAreFaithful | crates/byte-core/src/session/active_path.rs:115-128 | one skill per activated name, with the content of its last record and the place of its first |
| History.ActiveSkillsInOrder | crates/byte-core/src/runner_pool.rs:153-163 | recovered skills follow the order of first activation |
| SessionView.BuildView | crates/byte-core/src/session_view_repository.rs:81-173 | fails exactly without a header of the session; otherwise the workspace is that of its first header, the messages are `ViewMessages` and the compactions those of the log |
| SessionView.WalkMessages | crates/byte-core/src/session_view_repository.rs:126-163 | the skip-ahead loop replaces each block by its summary and keeps the rest |
| SessionView.ViewShowsTheLog | crates/byte-core/src/session_view_repository.rs:126-163 | for any log, every message of the view is an uncovered message of the log, or has the id and the summary of a compaction entry and the parent of the oldest message of its block |
| SessionView.FindStart | crates/byte-core/src/session_view_repository.rs:129-138 | the first compaction entry whose oldest message is at the index |
| ViewFacts.ViewAgreesIfDisjoint | crates/byte-core/src/session_view_repository.rs:113-163 | with unique ids and disjoint blocks the view is the path without skill notes, pointers shown as the messages they replace |
| ViewFacts.ViewAgreesExactlyWhenDisjoint | crates/byte-core/src/session_view_repository.rs:126-163 | the two readers agree if and only if the blocks are disjoint |
| ViewFacts.OverlappingBlocksDisagree | crates/byte-core/src/session_view_repository.rs:126-163 | a log with two overlapping blocks on which view and path differ |
| ReachableLog.ReachableIsSound | crates/byte-core/src/compaction.rs:127-150 | in every reachable log ids are distinct, blocks tile a prefix in order and end at developer messages, parents form one line, and results follow their calls |
| ReachableLog.CoveredIsPrefix | crates/byte-core/src/compaction.rs:229-262 | the compacted messages are exactly a prefix |
| ReachableLog.TiledIsDisjoint | crates/byte-core/src/compaction.rs:127-150 | blocks that tile are pairwise disjoint |
| ReachableLog.OldestBlockIsTail | crates/byte-core/src/compaction.rs:127-150 | the selected block is everything after the last compacted one |
| ReachableLog.ViewTail | crates/byte-core/src/runner.rs:176-176 | the view's last id, which becomes a run's parent, is the last message or the entry whose block ends there |
| ReachableLog.LinkedNext | crates/byte-core/src/runner.rs:176-196 | a new message keeps the parents in one line |
| ReachableLog.SomeCompactionIsLegal | crates/byte-core/src/compaction.rs:272-342 | there are reachable logs that compaction extends |
| ReachablePath.PathOfTiled | crates/byte-core/src/session/active_path.rs:80-155 | skill notes aside, the path of a reachable log is one summary per compaction, then every later message |
| ReachablePath.ResultsKeepTheirCalls | crates/byte-core/src/session/active_path.rs:84-131 | on the path of every reachable log each tool result follows the assistant message of its own turn, at the distance of its call, with only results of that turn between |
| CompactionEffect.CompactionChangesOnlyItsBlock | crates/byte-core/src/compaction.rs:326-338 | a new entry deletes exactly its block's messages from the path and puts one summary where the block began |
| CompactionEffect.CompactionTokens | crates/byte-core/src/compaction.rs:336-339 | new tokens + tokens of the removed messages = old tokens + tokens of the summary |
| CompactionEffect.CompactedPathTokens | crates/byte-core/src/compaction.rs:336-339 | on a reachable log what is left are the tokens of all summaries and all skills |
| Budget.ThresholdIsFloored | crates/byte-core/src/session/budget.rs:29-45 | the threshold is met exactly from the floored percentage on, a product beyond the machine word counting as the largest word; a zero budget never triggers |
| Budget.EstimateConcat | crates/byte-core/src/session/budget.rs:19-61 | estimates add up over concatenation |
| Budget.EstimateRoundsUp | crates/byte-core/src/session/budget.rs:48-61 | a message takes the fewest tokens of four bytes that hold all its blocks |
| Budget.TextRoundsUp | crates/byte-core/src/session/budget.rs:48-61 | a message of one text takes the fewest tokens of four bytes that hold the text |
| Budget.BytesOfBlocks | crates/byte-core/src/session/budget.rs:49-59 | the bytes of a body add up over its blocks: a text counts whole, a call with its name and its serialised arguments |
| Budget.WidthIsLeast | crates/byte-core/src/session/budget.rs:54-56 | lengths are counted in bytes of UTF-8: each character takes the fewest bytes that can hold it |
| Budget.BytesOfCharacters | crates/byte-core/src/session/budget.rs:48-61 | a text has between one and four bytes to a character, and one to each exactly if it is ASCII |
| Budget.EstimateCountsBytes | crates/byte-core/src/session/budget.rs:19-61 | four times the estimate of a conversation is at least its bytes, of which the texts are a part, and at most three bytes a message more |
| CompactionService.NeededInBytes | crates/byte-core/src/compaction.rs:279-283 | under a budget other than zero, a path with four bytes of text for each token of the threshold needs compaction; one that needs it has that many bytes, but for at most three a message |
| CompactionService.TooLargeInBytes | crates/byte-core/src/compaction.rs:306-315 | a message is too large exactly when its blocks have more than four bytes for each token of the budget |
| CompactionService.SelectCompactionRange | crates/byte-core/src/compaction.rs:127-150 | the oldest maximal run of uncompacted messages; none exactly when all are compacted |
| CompactionService.CollectCompactedIds | crates/byte-core/src/compaction.rs:229-262 | marks the same messages as the path builder |
| CompactionService.CollectSummary | crates/byte-core/src/compaction.rs:183-224 | succeeds exactly at the end of the stream, early or not, with all its text; each error has its cause; a pending cancellation always wins |
| CompactionService.Summarize | crates/byte-core/src/compaction.rs:153-225 | the summary answers a prompt of the instruction and then every given message with its own role, body and tool-call id |
| CompactionService.ChooseBlock | crates/byte-core/src/compaction.rs:291-311 | selects everything past the last compacted block; there is no range exactly when everything is compacted |
| CompactionService.RecordEntry | crates/byte-core/src/compaction.rs:326-342 | writes first, then succeeds exactly when the new path is below the threshold, which on the log of a starting run is decided by summaries and skills alone |
| CompactionService.CompactIfNeeded | crates/byte-core/src/compaction.rs:272-342 | nothing happens exactly below the threshold; it lacks history exactly when everything is compacted, never on the log of a starting run; the size error exactly when a selected message exceeds the budget; the entry written covers the oldest block, and its summary answers a prompt that has every message of that block after the instruction |
| LlmContext.BuildContext | crates/byte-core/src/llm_context.rs:50-95 | system messages, summaries as reminders, the other history in order, then the user message |
| LlmContext.PartitionKeepsAll | crates/byte-core/src/llm_context.rs:69-82 | every history item goes into exactly one group, as often as it occurs |
| LlmContext.ReorderingMovesOnlyNotes | crates/byte-core/src/llm_context.rs:69-82 | on every reachable log, putting summaries first moves only skill notes |
| LlmContext.ContextOfReachable | crates/byte-core/src/llm_context.rs:50-95 | the context of a reachable log in terms of its path |
| Presented.RenderedPathConveys | crates/byte-core/src/session/active_path.rs:84-115 | on the rendered path of any log every message says what it stands for: a stored message as it was stored, a pointer the name of its skill, a summary its whole text, a note the name and the whole content of its skill |
| Presented.EachSkillIsNotedOnce | crates/byte-core/src/session/active_path.rs:115-128 | for every log and each active skill the path has exactly one note of that name, and its message is a developer message that names the skill and ends with its current content |
| Presented.SummariesOnThePath | crates/byte-core/src/session/active_path.rs:131-155 | for every log a compaction whose two ends are known has its summary on the path as often as its entry is in the log, and any other has none |
| Presented.ContextPresents | crates/byte-core/src/llm_context.rs:50-95 | on a reachable log the request is, message by message, the system prompt, the instructions, one system message ending in the summary of each compaction, every other path item as it stands on the path, and the user's message |
| Presented.NothingIsLost | crates/byte-core/src/runner.rs:548-567 | every active skill instructs the model in the request, and every compaction reminds it |
| Runner.DeltaBuffer.Push | crates/byte-core/src/runner.rs:53-60 | flush ++ buffer = old buffer ++ delta; it flushes exactly from the threshold on, counted in bytes |
| Runner.DeltaBuffer.Flush | crates/byte-core/src/runner.rs:65-71 | gives up everything, and nothing only when empty |
| Runner.RunExecutor.HandleProviderEvent | crates/byte-core/src/runner.rs:698-795 | for each event the stream's contract allows, emitted text ++ buffer stays the received text; a completed message is stored with all of it |
| Runner.RunExecutor.OnCompleted | crates/byte-core/src/runner.rs:737-791 | flushes, reports, then stores the same body; a failed write leaves the trace one report ahead |
| Runner.RunExecutor.ConsumeProviderStream | crates/byte-core/src/runner.rs:635-694 | a completed message is emitted and stored in full; a cancelled one is emitted as far as received and not stored; no event at all if it had not begun; it fails only where the stream breaks or ends too early, or the write fails |
| Runner.RunExecutor.Interrupt | crates/byte-core/src/runner.rs:645-666 | RunCancelled is emitted exactly when a message was begun, after everything received |
| Runner.RunExecutor.CollectOutput | crates/byte-core/src/runner.rs:821-845 | every chunk is emitted in order; the result that stands is the last one, and an error ends the output |
| Runner.RunExecutor.ExecuteToolCall | crates/byte-core/src/runner.rs:799-875 | the tool that runs is the one the call names, with its arguments; what it came to, its last result or the error of a tool that cannot be started, is at once the reported result, the stored message and the message for the model |
| Runner.RunExecutor.AnswerCalls | crates/byte-core/src/runner.rs:622-627 | one stored result per call, in call order, each with what the tool of its own call came to; not begun by a run that has seen its cancellation |
| Runner.RunExecutor.MaybeCompact | crates/byte-core/src/runner.rs:444-523 | compacts exactly when the path is over the threshold; a run that needs compaction always finds a range, and fails if it is cancelled already |
| Runner.RunExecutor.Compact | crates/byte-core/src/runner.rs:477-515 | a start and at once its completion or failure, naming the block, id and summary of the entry written |
| Runner.RunExecutor.Prepare | crates/byte-core/src/runner.rs:528-568 | the prompt is the context of the active path of the log as compaction left it, with the user's message last; it says what each item of that path stands for, and every active skill and every compaction is in it |
| Runner.RunExecutor.TakeTurn | crates/byte-core/src/runner.rs:583-627 | each request is the prompt and the image of the complete turns stored so far; a run that has seen its cancellation sends none, and it looks again between a reply and its tools |
| Runner.RunExecutor.RunInner | crates/byte-core/src/runner.rs:527-629 | every request of the run is of that form, and every outcome leaves a trace its announcement completes; a run cancelled before it begins sends nothing, and ends as cancelled exactly when no compaction is needed, if the session can be read |
| Runner.RunExecutor.Run | crates/byte-core/src/runner.rs:383-439 | frees the runner and announces the outcome; a run that ends as cancelled says RunCancelled once exactly when it has asked the provider and its last request has had the start of an answer; where nothing around it fails, a run ends as cancelled exactly when it saw the cancellation when it last looked and no compaction failed; the trace is complete and the log holds exactly what it reports, but for the last report of a failed run |
| CancelledRuns.SilentCancel | crates/byte-core/src/runner.rs:570-574 | a run of the executor that ends as cancelled without RunCancelled |
| CancelledRuns.CancelledYetFailed | crates/byte-core/src/runner.rs:505-513 | a cancelled run of the executor that ends as failed |
| CancelledRuns.CancelledYetSucceeded | crates/byte-core/src/runner.rs:607-609 | a run of the executor, cancelled after its last response, that ends as succeeded |
| CancelledRuns.CallsLeftUnanswered | crates/byte-core/src/runner.rs:611-615 | for any calls, a run of the executor, cancelled after the reply that makes them, that says RunCancelled and leaves them all without a result |
| Runner.SessionRunner.SendMessage | crates/byte-core/src/runner.rs:153-213 | Busy exactly when a run is active, and then nothing changes; any other failure frees the runner; otherwise the message is stored under the last message of the view |
| Runner.SessionRunner.CancelRun | crates/byte-core/src/runner.rs:224-245 | cancels the active run's token and nothing else |
| RunRecord.SendsNext | crates/byte-core/src/runner.rs:569-628 | adding a finished turn to the request keeps it the image of complete turns |
| RunRecord.CatchesUp | crates/byte-core/src/runner.rs:755-788 | a reported message that is stored brings log and trace in step again |
| ReachableLog.PendingOpen | crates/byte-core/src/runner.rs:622-627 | the calls still open are the last ones of the last assistant message, and only results of that turn follow it |
| RunTrace.OneStartOneFinish | crates/byte-core/src/runner.rs:383-439 | RunStarted first, RunFinished last, each exactly once |
| RunTrace.CompactionIsAnswered | crates/byte-core/src/runner.rs:477-515 | CompactionStarted is followed at once by its completion or failure |
| RunTrace.CancelIsLast | crates/byte-core/src/runner.rs:402-422 | RunCancelled follows a started message, and only RunFinished(Cancelled) follows it |
| RunTrace.NoticesByPhase | crates/byte-core/src/runner.rs:402-422 | a run says RunCancelled at most once, and not before it is cancelled |
| RunTrace.NoErrorUnlessFailed | crates/byte-core/src/runner.rs:423-437 | only a failed run emits an error |
| RunTrace.ToolsFinish | crates/byte-core/src/runner.rs:806-857 | in a run that did not fail every started tool call is finished before anything else happens |
| RunTrace.MessagesComplete | crates/byte-core/src/runner.rs:698-790 | in a run that did not fail every started message is completed, or is the last one of a cancelled run |
| Rebuild.RebuildShowsTheRun | crates/byte-core/src/session/active_path.rs:84-115 | the path rebuilt from the log ends with everything the run reported; exactly the results of recorded skill activations are cut down to the pointer to their skill |
| Exclusion.Kept | crates/byte-core/src/runner.rs:153-275 | every move of every task keeps the invariant |
| Exclusion.OneRunAtATime | crates/byte-core/src/runner.rs:153-213 | in every interleaving at most one task is between claim and clear, the slot names it, the log is reachable, and each run's messages are one block |
| Exclusion.KeptByClear | crates/byte-core/src/runner.rs:273-275 | clearing does not ask whose slot it is, yet it is always the clearer's own |
| Exclusion.KeptByActivate | crates/byte-core/src/session_manager.rs:167-195 | an activation during a run disturbs nothing the run remembers |
| Exclusion.WaitingIsSafe | crates/byte-core/src/runner.rs:383-389 | whatever others do while a run waits, it finds its log extended by skill activations at most |
| SkillCache.WriteThrough | crates/byte-core/src/runner_pool.rs:129-136 | updating the recovered list is recovering from the longer log |
| SkillCache.WriteThroughSeries | crates/byte-core/src/runner_pool.rs:129-164 | the same for any series of activations |
| SkillCache.CrossedUpdates | crates/byte-core/src/activate_skill.rs:87-111 | two activations that reach log and cache in opposite orders leave the cache right exactly in the stated cases |
| SkillCache.CrossingFails | crates/byte-core/src/activate_skill.rs:87-111 | two skills, neither active before, whose crossing leaves the cache wrong |
| SkillCache.CacheIsOnThePath | crates/byte-core/src/session/active_path.rs:115-128 | the recovered list is the list of skill notes on the active path |
| SkillCache.CollectSkills | crates/byte-core/src/runner_pool.rs:153-163 | the loop over the log computes the recovered list |
| SkillCache.SkillHandle.Update | crates/byte-core/src/runner_pool.rs:132-136 | refreshes in place or appends, and says whether the skill was active |
| SkillCache.RunnerPool.ActiveSkillsFor | crates/byte-core/src/runner_pool.rs:105-119 | returns the list in memory, or recovers it |
| SkillCache.RunnerPool.RecordSkillActivation | crates/byte-core/src/runner_pool.rs:129-137 | faithful again after the write, whether the list was older than the write or recovered after it; after a failed read the list holds this skill alone, which is right exactly when no other was active |
| SkillCache.RunnerPool.ActivateForSession | crates/byte-core/src/session_manager.rs:167-195 | write, then update; the list is right afterwards exactly when the log could be read or no other skill was active |
| SkillCache.RunnerPool.InvokeActivateSkill | crates/byte-core/src/activate_skill.rs:87-125 | keeps the list faithful; the instructions come back exactly on the first activation, and later a text that names the skill |
| ToolChunks.CombineToolCallChunks | crates/byte-models/src/openai.rs:247-280 | one call for each index that some chunk names, by increasing index: its name is the last one given, its id the last one given or else the name, its arguments what its fragments say together, or an empty object |
| ToolChunks.CallsBelowAreTheNamed | crates/byte-models/src/openai.rs:266-280 | the calls made from each index's own chunks are those of the named indices, in terms of the chunks |
| ToolChunks.InterleavingDoesNotMatter | crates/byte-models/src/openai.rs:247-264 | chunk lists that agree on every index's own chunks give the same calls |
| ToolChunks.NeighboursSwap | crates/byte-models/src/openai.rs:247-264 | neighbouring chunks of different indices can trade places |
| ToolChunks.SplittingDoesNotMatter | crates/byte-models/src/openai.rs:256-263 | where an argument fragment is cut does not matter |
| ToolChunks.BuildProviderStream | crates/byte-models/src/openai.rs:194-244 | a start, deltas with exactly the text, then one completion with the calls the chunks name; if the connection breaks, deltas with exactly the text before the break, then one error |
| ToolChunks.MeetsTheContract | crates/byte-models/src/provider.rs:68-72 | every event of that stream meets the contract the runner relies on |
| Reducer.CallsFollow | apps/desktop/src/store/reducer.ts:341-407 | through every run that can still succeed, an introduced call is still to be answered or shows its last result |
| Reducer.SucceededRunIsSettled | apps/desktop/src/store/reducer.ts:261-326 | after a run that succeeded nothing is in progress, and every introduced call shows the output and status of its last result |
| Reducer.FinishedRunIsSettled | apps/desktop/src/store/reducer.ts:304-326 | however a run ended, once it has finished no message is in progress and nobody waits for it |
| Reducer.InterruptedIsShown | apps/desktop/src/store/reducer.ts:261-340 | after any finished run an assistant message it began is shown as an error unless its completion was emitted |
| Reducer.LiveOutput | apps/desktop/src/store/reducer.ts:341-386 | while a tool runs its call shows the chunks so far, and nothing else changes |
| Reducer.CompactionAgreesWithView | apps/desktop/src/store/reducer.ts:411-455 | the summary a client shows when it follows a compaction is the one the view has for its block, and nothing else changes |
| Reducer.LiveAgreesWithLoaded | apps/desktop/src/store/reducer.ts:128-153 | after such a run a client that followed the events and one that loads the session show the same name and arguments of a call; the same output exactly when its id is not empty; the same status and error exactly when its last result was no error |
| EmptyCallId.OutputsCanDiffer | apps/desktop/src/store/reducer.ts:148-153 | a reachable log and a succeeded run after which the two clients show different outputs for the empty call id |
| Reducer.CompletionRepeatsTheText | apps/desktop/src/store/reducer.ts:283-296 | the followed message is the streamed text and then the whole stored body; its text is the streamed text twice, and equals the loaded text exactly when empty |
| Reducer.LoadToolCalls | apps/desktop/src/store/reducer.ts:128-153 | every call of an assistant message, as complete, with name, arguments and message id of the last one that carries its id, and the text of its last result |
| Reducer.SeedsAreTheLatest | apps/desktop/src/store/reducer.ts:128-143 | a call id is loaded exactly when an assistant message holds it, and then as the last call of the last such message |
| Reducer.FindMessageIdForToolCall | apps/desktop/src/store/reducer.ts:461-477 | the last assistant message that holds the call |
| SessionFile.DecodeSessionEntries | crates/byte-session/src/persistence.rs:17-25 | the records of the lines, blank lines and unknown types left out; one malformed line spoils all |
| SessionFile.OneBadLine | crates/byte-session/src/persistence.rs:17-44 | reading fails exactly when some line that is not blank is malformed |
| SessionFile.LineEnds | crates/byte-session/src/persistence.rs:17-25 | a line can end with a line feed, with a carriage return before it, or with the file |
| SessionFile.ReadsBackWhatWasAppended | crates/byte-session/src/lib.rs:318-328 | decoding what any series of appends wrote gives exactly the appended records in order |
| LineCodec.SomeCodecIsLawful | crates/byte-protocol/src/lib.rs:836-840 | there is an encoding of all records, one line each, that decodes back |
| SessionFile.UnknownLinesAreIgnored | crates/byte-session/src/persistence.rs:34-44 | a line of unknown type inserted between any two lines changes nothing |
| SessionFile.BlankLinesAreIgnored | crates/byte-session/src/persistence.rs:17-25 | nor does a line of spaces and tabs, with either line end, whatever the encoding would make of it |
| SessionFile.SessionFile.WriteLine | crates/byte-session/src/lib.rs:318-328 | the file is the encoding of everything appended so far, and unchanged when a write fails |
| SessionFile.SessionFile.ReadEntries | crates/byte-session/src/lib.rs:195-215 | returns exactly what was appended, unless the file is missing, too large or cannot be read |

## Left out

- Runner.RunExecutor.Run: takes a bound on the number of requests, because the model may ask for tools forever; what is proved holds for every bound.
- Runner.RunExecutor.CollectOutput: streams are finite, of any length, because the loop that reads one must end.
- Runner.SessionRunner.CancelRun: does not model the wait until the run has cleared the slot, which depends on another task being scheduled.
- Runner.SessionRunner.SendMessage: returns the executor that the source spawns as a task of its own.
- Runner.RunExecutor.Prepare: the system prompt, made from the tools and the skill catalogue, is an arbitrary text, and reading AGENTS.md is a parameter.
- CompactionService.CollectSummary: the cancellation token is always given, as its only caller gives one.
- CompactionService.Summarize: the cancellation token is always given, as its only caller gives one.
- ActivePath.BuildActivePath: says what the path is only for unique message ids, which every reachable log has.
- ActivePath.WalkEntries: says what the walk is only for unique message ids, which every reachable log has.
- SessionView.WalkMessages: says what the view is only for unique message ids, which every reachable log has.
- SessionView.BuildView: says what the messages are only for unique message ids, which every reachable log has.
- SkillCache.CrossedUpdates: the crossing is given by the two orders in which the activations reach log and list; the steps of the two tasks are not interleaved.
- SkillCache.RunnerPool.ActiveSkillsFor: two callers that race to insert the first list are not modelled.
- SkillCache.RunnerPool.ActivateForSession: loading the view and looking the skill up are one step that can fail.
- SkillCache.RunnerPool.InvokeActivateSkill: the first activation returns a JSON object of which the content is kept; argument parsing and the skill registry are not modelled.
- Reducer.SucceededRunIsSettled: exit codes, run ids, timestamps, the event log of the client and its connection state are not modelled.
- SessionFile.ReadsBackWhatWasAppended: JSON is a pair of functions with a round trip.
- SessionFile.SessionFile.WriteLine: a write happens as a whole or not at all, and a read that follows sees it; the source drops the file without flushing it, so a write that returned may not be visible yet, or its error lost. The same holds of `Runtime.SessionStore`.
- Provider streams with two starts or a repeated message id, which the provider's contract excludes; everything else about a stream, a tool or the store is adversarial.
- Closing or deleting a session while a message is being sent: `get_or_create` and `send_message` are two steps, so exclusion is stated for one runner.
- The order in which events of different runs reach a client: the counter and the send are separate steps.
- The daemon, its transport, configuration, the file and shell tools, skill files and their frontmatter, and the components of the client.
