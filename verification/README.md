# Verified models of an agent runtime

This project models the self-contained algorithms and state machines of the Ozzie agent runtime
and of its `worm` memory crates in Dafny, and proves what they promise for every input, every
interleaving or every run. Each `.dfy` file holds one module; all of them are checked together
with `dafny verify dfyconfig.toml`.

| file | what it models |
|---|---|
| `UnionFind.dfy`, `TagClusters.dfy` | tag clustering with an in-place disjoint-set forest |
| `ConversationRuntime.dfy`, `Dispatch.dfy`, `DispatchOrder.dfy` | the shared runtime of a conversation, the protocol between the one dispatcher and the handler tasks, and the order in which it moves messages |
| `JsonSchema.dfy`, `ToolSchema.dfy` | JSON Schema validation, and the schema normaliser with its three provider presets |
| `LayeredIndex.dfy`, `LayeredText.dfy`, `Retriever.dfy`, `RetrieverAnswers.dfy` | the incremental context index with its archives, what it keeps of the messages, budgeted retrieval from it, and what answers hold |
| `LineStream.dfy` | reassembly of provider lines from chunks |
| `ReactLoop.dfy`, `ReactRuns.dfy`, `ToolResponse.dfy` | the ReAct loop with its repetition detector, what its runs send and return, and tool-response compaction |
| `Jsonc.dfy` | the stripper of JSON comments and trailing commas |
| `Frontmatter.dfy`, `PageFrontmatter.dfy`, `EntryFrontmatter.dfy`, `PageStore.dfy` | markdown printers and parsers, and the page index rebuilt from the files |
| `CircuitBreaker.dfy` | the circuit breaker and the fallback provider |
| `Consolidation.dfy` | the merge graph of memories |
| `ConversationRegistry.dfy` | coordinate bindings and the active conversation |
| `RpcClient.dfy` | the response demultiplexer of the JSON-RPC client |
| `Prelude.dfy`, `Text.dfy` | `Option`, `Result` and the string operations the code relies on |

Code that updates variables, vectors or fields is written as methods and classes whose contracts
equate the outcome with a function of the input or of the old state; what the source promises is
then proved about that function, in terms of its input and result alone. I/O, clocks, random ids, model replies, tools and store faults
are parameters, so every result holds for all of them.

## Where the code differs from its own description

Each of these is proved with inputs on which it happens, and, where there are inputs on which the
code does what is described, with the condition that separates the two:

- Tag clustering counts the later entry's tags with multiplicity, so two entries that share one
  tag are linked if the later one lists it twice (`LinkMeasuresSharedTags`, `LinkDependsOnOrder`).
- A user message can be lost at single-operation grain, exactly when `reset` clears a non-empty
  buffer, which happens only in two windows (`DiscardNeedsRace`, `RestartBeforeFinalDrainLoses`,
  `LatePushLoses`); with the two read-modify-write pairs atomic, nothing is lost
  (`AtomicPairsLoseNothing`).
- A handler that panics leaves its conversation active for good, and every later message is only
  buffered (`PanicJams`, `PanicStrands`); a conversation can become idle again exactly if none of
  its handlers has panicked (`IdleAgainIff`).
- Normalising a `oneOf` branch can make a schema accept more (`OneOfCanWiden`), but not if no two
  branches accept one value, as in a tagged union (`NormalizeMoves`, `TaggedUnionIsApart`).
- The recency bonus is described as favouring the most recent chunk and always favours the oldest
  (`OldestGetsTheBonus`, `EqualScoresRankOldestFirst`).
- A cached message count can belong to other messages (`CountsCanDisagree`). The counts are those
  of a build from scratch exactly if no chunk that is kept is cached with another count
  (`CountsAgreeIff`); so they are if no two chunks ever built have one transcript and different
  lengths (`CountsAgree`), as with single-line messages (`SingleLinesHaveOneLength`).
- Lines after a provider's end signal are still parsed when `on_finish` emitted something
  (`OverrunHappens`, `StreamRefinesBatch`).
- A trailing comma followed by a comment is kept (`CommaBeforeCommentStays`, `CommaGoesIff`). An
  unclosed block comment leaves its last character in the output (`StripJsonc`), and if that is a
  quote the output opens a string (`UnclosedCommentCanOpenString`, `RescanFindsTheSameLiterals`).
- Compaction of a long tool response panics when 1200 bytes before the end is inside a character
  (`CompactPanicsIff`, `CompactCanPanic`).
- An upsert of a new slug under an id that another page has drops that page's row and keeps its
  file (`UpsertAgrees`, `OrphanedFile`, `OneIdForTwoPages`); rows and files agree all through a run
  exactly if it has no such upsert (`RunsAgreeIff`).
- A probe dropped while the primary is slow keeps the primary bypassed forever, with requests made
  one after another; any other probe does not (`AskedAgainIff`, `PrimaryCanBeLost`).
- After a restart a coordinate may lose its conversation to an archived one that is listed later
  (`RestartResolves`, `RestartCanLoseConversation`).

## Model

| member | source | states |
|---|---|---|
| `UnionFind.Find` | worm/worm-dream/src/synthesizer.rs:80-85 | terminates on every forest, returns the root, and path compression changes no index's root |
| `UnionFind.Union` | worm/worm-dream/src/synthesizer.rs:87-93 | the two trees, and no others, have one root afterwards; the vector stays a forest |
| `UnionFind.CompressionKeepsRoots` | worm/worm-dream/src/synthesizer.rs:80-85 | pointing an index straight at its root keeps the forest and every root |
| `UnionFind.LinkMergesTrees` | worm/worm-dream/src/synthesizer.rs:87-93 | hanging one root under another keeps the forest and merges exactly their two trees |
| `UnionFind.RootIsClimb` | worm/worm-dream/src/synthesizer.rs:80-85 | the root does not depend on the measure chosen to justify termination |
| `TagClusters.MergeLinked` | worm/worm-dream/src/synthesizer.rs:77-107 | after the double loop two entries have one root exactly if a chain of pairwise links joins them |
| `TagClusters.MergeRow` | worm/worm-dream/src/synthesizer.rs:95-107 | one round of the outer loop keeps every index chained to its root and merges every link of its row |
| `TagClusters.RootsAreComponents` | worm/worm-dream/src/synthesizer.rs:77-107 | once all links are merged, equal roots and chains of links are the same relation, both ways |
| `TagClusters.GroupByRoot` | worm/worm-dream/src/synthesizer.rs:109-113 | every index is listed under its root, in increasing order, and no root changes |
| `TagClusters.SharedTags` | worm/worm-dream/src/synthesizer.rs:120-132 | lists without repetition exactly the intersection of the members' tag sets |
| `TagClusters.ClusterByTags` | worm/worm-dream/src/synthesizer.rs:68-140 | the clusters partition the entries into the connected components of the pairwise test, each with its ids in order and the tags all members carry |
| `TagClusters.LinkMeasuresSharedTags` | worm/worm-dream/src/synthesizer.rs:98-103 | the pairwise test agrees with "at least two common tags" exactly unless fewer are common and the later entry repeats a common one |
| `TagClusters.LinkDependsOnOrder` | worm/worm-dream/src/synthesizer.rs:98-103 | a pair linked in one order of the entries and not in the other |
| `ConversationRuntimes.ConversationRuntime.SetActive` | crates/ozzie-runtime/src/conversation_runtime.rs:37-39 | changes the flag and nothing else |
| `ConversationRuntimes.ConversationRuntime.PushPending` | crates/ozzie-runtime/src/conversation_runtime.rs:42-44 | appends to the buffer and changes nothing else |
| `ConversationRuntimes.ConversationRuntime.Cancel` | crates/ozzie-runtime/src/conversation_runtime.rs:52-54 | cancels the current token only |
| `ConversationRuntimes.ConversationRuntime.Reset` | crates/ozzie-runtime/src/conversation_runtime.rs:60-65 | three operations: a new uncancelled token, an empty buffer, inactive; earlier tokens keep their state |
| `ConversationRuntimes.ConversationRuntime.Drain` | crates/ozzie-runtime/src/conversation_runtime.rs:74-77 | returns the whole buffer in order and leaves it empty |
| `ConversationRuntimes.PushAndDrain` | crates/ozzie-runtime/src/conversation_runtime.rs:42-77 | a drain returns what was buffered before, then the texts in the order they were pushed |
| `Dispatch.ExclusiveStep` | crates/ozzie-runtime/src/event_runner.rs:292-337 | every single lock or atomic operation keeps: a conversation is active exactly while one owner holds it |
| `Dispatch.MutualExclusion` | crates/ozzie-runtime/src/event_runner.rs:292-337 | in every interleaving two handlers of one conversation never overlap, and `active` holds exactly while one is live, has panicked, or is being started |
| `Dispatch.BalancedStep` | crates/ozzie-runtime/src/event_runner.rs:292-337 | every operation keeps the account of each message |
| `Dispatch.Conservation` | crates/ozzie-runtime/src/event_runner.rs:259-337 | in every run each published text is exactly one of: on the bus, in the dispatcher's hand, pending, about to be re-published, handled, drained into a loop, discarded by `reset` |
| `Dispatch.DiscardNeedsRace` | crates/ozzie-runtime/src/event_runner.rs:305-324 | in every run a step discards messages exactly if it is `reset` clearing a non-empty buffer, and then a handler is between clearing the flag and draining, or a push came too late |
| `Dispatch.OnlyClearDiscards` | crates/ozzie-runtime/src/conversation_runtime.rs:60-65 | an operation discards something exactly if it clears a non-empty buffer |
| `Dispatch.RestartBeforeFinalDrainLoses` | crates/ozzie-runtime/src/event_runner.rs:312-324 | a reachable state in which the first window has discarded a message |
| `Dispatch.LatePushStrands` | crates/ozzie-runtime/src/event_runner.rs:307-310 | a reachable state with nothing left to do and a message stranded in the buffer |
| `Dispatch.LatePushLoses` | crates/ozzie-runtime/src/event_runner.rs:307-313 | a reachable state in which the second window has discarded a message |
| `Dispatch.AtomicPairsLoseNothing` | crates/ozzie-runtime/src/event_runner.rs:305-335 | with check-and-push and deactivate-and-drain atomic, an inactive conversation has an empty buffer, nothing is ever discarded, and once all handlers have finished and nothing is left to do every published message was delivered |
| `Dispatch.ResetIsThreeSteps` | crates/ozzie-runtime/src/conversation_runtime.rs:60-65 | the three steps of `reset` leave the runtime as the method of the runtime class does, and touch no other conversation |
| `Dispatch.PanicJams` | crates/ozzie-runtime/src/event_runner.rs:318-320 | once a handler has panicked its conversation stays active in every continuation, and no message of it is handled, drained or discarded again |
| `Dispatch.IdleAgainIff` | crates/ozzie-runtime/src/event_runner.rs:314-320 | a conversation can become idle again exactly if no handler of it has panicked |
| `Dispatch.PanicStrands` | crates/ozzie-runtime/src/event_runner.rs:307-320 | a reachable state with a panicked handler, nothing left to do and a message stuck in the buffer |
| `DispatchOrder.OrderIsKept` | crates/ozzie-runtime/src/event_runner.rs:259-337 | in every run events are received in the order they were put on the bus, messages are buffered or given to handlers in the order they were received, and taken out of each buffer in the order they were buffered |
| `DispatchOrder.RepublishedInOrder` | crates/ozzie-runtime/src/event_runner.rs:322-334 | a final drain takes every text buffered and not taken before, and however the run goes on the handler re-publishes exactly these, in the order they were buffered |
| `DispatchOrder.EmptyTextsAreIgnored` | crates/ozzie-runtime/src/event_runner.rs:301-303 | no empty text is buffered or given to a handler in any run |
| `ToolSchema.NormalizeSchema` | crates/ozzie-llm/src/schema.rs:72-78 | the in-place normaliser computes the normal form of the root, leaving `definitions` alone |
| `ToolSchema.NormalizeObj` | crates/ozzie-llm/src/schema.rs:80-177 | rewrites one schema object and everything it visits into the normal form |
| `ToolSchema.NormalizeRef` | crates/ozzie-llm/src/schema.rs:179-183 | boolean schemas stay, objects are normalised |
| `ToolSchema.NormalizeLeafFields` | crates/ozzie-llm/src/schema.rs:81-134 | title, null types with `nullable`, format and constraints of one object |
| `ToolSchema.NormalizeProperties` | crates/ozzie-llm/src/schema.rs:147-149 | every property is normalised once, whatever the map order |
| `ToolSchema.NormalizeObjectRules` | crates/ozzie-llm/src/schema.rs:136-153 | properties, required list and additional properties after the preset |
| `ToolSchema.NormalizeArrayRules` | crates/ozzie-llm/src/schema.rs:155-167 | single and positional items |
| `ToolSchema.NormalizeSubschemas` | crates/ozzie-llm/src/schema.rs:169-176 | the branches of `allOf`, `anyOf` and `oneOf` |
| `ToolSchema.Monotone` | crates/ozzie-llm/src/schema.rs:80-177 | replacing the parts of a schema by stronger ones gives a stronger schema, on any domain closed under parts |
| `ToolSchema.NormalizeMoves` | crates/ozzie-llm/src/schema.rs:80-177 | a narrowing preset only narrows and a widening one only widens, for every schema tree whose `oneOf` branches are left as they are or accept no value in common |
| `ToolSchema.OneOfMonotone` | crates/ozzie-llm/src/schema.rs:169-176 | a `oneOf` over weaker branches of which no two accept one value accepts all it accepted |
| `ToolSchema.TaggedUnionIsApart` | crates/ozzie-llm/src/schema.rs:169-176 | no two branches of a tagged union accept one value, however open its objects are |
| `ToolSchema.RootMoves` | crates/ozzie-llm/src/schema.rs:72-78 | the same for whole documents; root metadata and `$schema` constrain nothing |
| `ToolSchema.OpenAiNarrows` | crates/ozzie-llm/src/schema.rs:45-54 | what the OpenAI form accepts the original accepted; on values without null the two agree exactly |
| `ToolSchema.AnthropicNarrows` | crates/ozzie-llm/src/schema.rs:56-64 | what the Anthropic form accepts the original accepted |
| `ToolSchema.AnthropicClosesObjects` | crates/ozzie-llm/src/schema.rs:136-146 | an object accepted by the Anthropic form has exactly the declared properties |
| `ToolSchema.GeminiWidens` | crates/ozzie-llm/src/schema.rs:34-43 | read with OpenAPI `nullable`, the Gemini form accepts all the original accepted |
| `ToolSchema.NormalizeIdempotent` | crates/ozzie-llm/src/schema.rs:80-177 | every preset, on every schema, is idempotent |
| `ToolSchema.NormalizeNullFree` | crates/ozzie-llm/src/schema.rs:80-177 | no visited type list still holds null |
| `ToolSchema.RootIsNormal` | crates/ozzie-llm/src/schema.rs:72-183 | read off the two documents: `$schema` and root metadata are gone, no visited object has a title or lists null, and each visited object is the old one but for what the options take away or add; `definitions` and unvisited parts stay |
| `ToolSchema.GeminiForm` | crates/ozzie-llm/src/schema.rs:34-134 | for Gemini no visited object has a format or a constraint on numbers or strings, and each whose types listed null says `nullable` |
| `ToolSchema.AnthropicForm` | crates/ozzie-llm/src/schema.rs:56-146 | for Anthropic every visited object requires all its properties and has `additionalProperties` |
| `ToolSchema.OneOfCanWiden` | crates/ozzie-llm/src/schema.rs:169-176 | a `oneOf` that accepts a value only after normalisation, and why it is outside the condition |
| `LayeredIndex.ArchiveStore.CleanupArchives` | crates/ozzie-runtime/src/layered_store.rs:129-159 | leaves exactly the archives that are valid or cannot be removed, unchanged |
| `LayeredIndex.BuildNodes` | worm/worm-layered/src/indexer.rs:93-154 | nodes and archives after the chunk loop, stopping at the first error with the archives written so far |
| `LayeredIndex.BuildChunk` | worm/worm-layered/src/indexer.rs:94-153 | one chunk: a cache hit reuses the node, a miss derives one and writes its archive |
| `LayeredIndex.BuildOrUpdate` | worm/worm-layered/src/indexer.rs:64-188 | the session directory and the result of one build, errors included |
| `LayeredIndex.RunKeepsBacking` | worm/worm-layered/src/indexer.rs:93-187 | a build that succeeds or stops anywhere leaves every saved node with an archive that hashes to its checksum |
| `LayeredIndex.ArchivesBackTheIndex` | worm/worm-layered/src/indexer.rs:64-188 | so does any sequence of builds, with faults and summarizers free to vary |
| `LayeredIndex.BuildKeepsNewest` | worm/worm-layered/src/indexer.rs:93-159 | a successful build saves the last `max_archives` chunks in order, the node at position k of n ranked n-1-k |
| `LayeredIndex.CleanupIsExact` | worm/worm-layered/src/indexer.rs:183-187 | after a cleanup that removes all it should, exactly the saved nodes have archives |
| `LayeredIndex.RunKeepsDerived` | worm/worm-layered/src/indexer.rs:93-187 | every build keeps: each saved node is what its archived transcript derives to |
| `LayeredIndex.IncrementalEqualsScratch` | worm/worm-layered/src/indexer.rs:64-188 | a build over whatever earlier builds left, with any chunk sizes and archive limits, returns the root, nodes and errors of a build over an empty store, up to timestamps, and the message counts too if the transcript of a chunk tells its length |
| `LayeredIndex.CountsAgreeIff` | worm/worm-layered/src/indexer.rs:98-104 | over whatever is saved, a build gives the message counts of a build from scratch exactly if no chunk it keeps is cached with another count |
| `LayeredIndex.CountsAgree` | worm/worm-layered/src/indexer.rs:64-188 | over whole runs, message counts agree with a build from scratch if no two chunks ever built have one transcript and different lengths |
| `LayeredIndex.SingleLinesHaveOneLength` | worm/worm-layered/src/indexer.rs:233-239 | chunks of single-line messages with one transcript have one length |
| `LayeredIndex.TranscriptCountsMessages` | worm/worm-layered/src/indexer.rs:233-239 | the transcript of single-line messages tells how many there were |
| `LayeredIndex.TranscriptsAreAmbiguous` | worm/worm-layered/src/indexer.rs:233-239 | a two-line message whose second line looks like a transcript line reads like two messages |
| `LayeredIndex.StaleCount` | worm/worm-layered/src/indexer.rs:98-104 | of two chunks with one transcript, a build of the second over what the first left keeps the first one's count |
| `LayeredIndex.CountsCanDisagree` | worm/worm-layered/src/indexer.rs:98-104 | two builds after which the cached message count is 1 where a fresh build says 2 |
| `LayeredText.ChunksAreTheMessages` | worm/worm-layered/src/indexer.rs:227-230 | the chunks one after another are the messages, and all but the last have the full size |
| `LayeredText.ChunkCount` | worm/worm-layered/src/indexer.rs:227-230 | there are just enough chunks to hold the messages |
| `LayeredText.TranscriptIsLines` | worm/worm-layered/src/indexer.rs:233-239 | a transcript is the line of each message, role and content, in order |
| `LayeredText.ArchivesHoldTheMessages` | worm/worm-layered/src/indexer.rs:89-187 | over whatever earlier builds left, a successful build leaves archives that together hold the line of every message in order, except those of the oldest chunks beyond the archive limit |
| `LayeredText.SkippedIs` | worm/worm-layered/src/indexer.rs:156-159 | leaving out that many chunks leaves out that many times the chunk size of messages |
| `LayeredText.NoMessageIsLost` | worm/worm-layered/src/indexer.rs:89-187 | with room for all chunks the archives hold the lines of all messages |
| `LayeredText.NodesTellTheirArchives` | worm/worm-layered/src/indexer.rs:106-139 | after any builds each saved node carries the summary, abstract, keywords, id and token counts of the transcript in its archive |
| `LayeredText.RootTellsItsNodes` | worm/worm-layered/src/indexer.rs:161-225 | the root carries the summary, abstract and keywords of the abstracts of the saved nodes and their ids in order; the index keeps its creation date |
| `LayeredText.NodesAreDated` | worm/worm-layered/src/indexer.rs:98-143 | every saved node is new in this build or a saved one of which only rank and update time changed |
| `LayeredText.HealthyBuildSucceeds` | worm/worm-layered/src/indexer.rs:64-188 | a build succeeds if neither store nor summarizer fails |
| `LayeredText.FailedBuildKeepsIndex` | worm/worm-layered/src/indexer.rs:64-188 | a failed build leaves the saved index alone, and one that cannot load or save it fails |
| `LayeredText.NothingWritten` | worm/worm-layered/src/indexer.rs:141-153 | if no archive can be written none appears, and a build with a transcript not cached fails |
| `Retriever.Retrieve` | worm/worm-layered/src/retriever.rs:26-219 | which layer answers, and that the selections are the greedy choice from what that layer offers |
| `Retriever.SelectWithBudget` | worm/worm-layered/src/retriever.rs:222-255 | abstracts or summaries chosen greedily |
| `Retriever.SelectTranscripts` | worm/worm-layered/src/retriever.rs:153-216 | the root abstract, then transcripts with summaries to fall back on, chosen greedily |
| `Retriever.TranscriptOrSummary` | worm/worm-layered/src/retriever.rs:172-215 | one node contributes its transcript if stored and it fits, else its summary if that fits |
| `Retriever.BuildResult` | worm/worm-layered/src/retriever.rs:257-280 | `used` is the sum of the selected tokens |
| `Retriever.GreedyIsMaximal` | worm/worm-layered/src/retriever.rs:171-255 | the choice is within budget, in ranked order, of each offer the most preferred form that fits, and an offer left out fits in no form even at the end |
| `Retriever.AnswersStayInBudget` | worm/worm-layered/src/retriever.rs:37-280 | on all three layers `used` is the sum, at most max(400, 45% of the prompt), and the choice maximal |
| `Retriever.RankingSorts` | worm/worm-layered/src/retriever.rs:72-72 | the ranking is a descending permutation |
| `Retriever.OldestGetsTheBonus` | worm/worm-layered/src/retriever.rs:64-67 | over the ranks a build leaves the bonus falls strictly from 0.08 for the oldest chunk to 0 for the newest |
| `Retriever.EqualScoresRankOldestFirst` | worm/worm-layered/src/retriever.rs:57-72 | when all chunks match alike, an index just built is searched oldest first |
| `Retriever.TranscriptsAreOnHand` | worm/worm-layered/src/retriever.rs:174-174 | over a directory any builds left, no node's transcript is missing and it is the one with the node's checksum |
| `RetrieverAnswers.AnswersAreGenuine` | worm/worm-layered/src/retriever.rs:76-280 | on every layer each selection is, at its estimated cost and score, the abstract, summary, stored transcript or fallback summary of one of the best ranked nodes, or the root's abstract; the reported top score is that of the ranking |
| `RetrieverAnswers.NothingFittingIsLeftOut` | worm/worm-layered/src/retriever.rs:76-255 | each of the best ranked nodes, up to the layer's limit, is in the answer unless its abstract or summary would not fit into what is left of the budget |
| `RetrieverAnswers.RootComesFirst` | worm/worm-layered/src/retriever.rs:153-169 | on the last layer the root's abstract comes first unless it alone is over the budget |
| `RetrieverAnswers.FirstLayerIff` | worm/worm-layered/src/retriever.rs:57-85 | the first layer answers exactly if some node scores high enough, and then its top score is the highest |
| `RetrieverAnswers.LastLayerIff` | worm/worm-layered/src/retriever.rs:87-151 | the last layer answers exactly if no candidate's summary scores high enough and the best is not clearly ahead of the second |
| `RetrieverAnswers.BudgetIsTrue` | worm/worm-layered/src/retriever.rs:37-37 | the budget is 45% of the prompt rounded down, but at least 400 |
| `RetrieverAnswers.SavingsAreTrue` | worm/worm-layered/src/retriever.rs:257-280 | the savings ratio is the unused fraction of the budget |
| `LineStream.Stream.Next` | crates/ozzie-llm/src/helpers.rs:148-213 | each poll yields exactly the next item still to come; `on_finish` runs at most once |
| `LineStream.Stream.ParseLine` | crates/ozzie-llm/src/helpers.rs:155-189 | one complete line is taken off the buffer and parsed; what the stream still has to emit stays the same, and is nothing when the end signal leaves nothing pending |
| `LineStream.Stream.Flush` | crates/ozzie-llm/src/helpers.rs:174-177 | `on_finish` runs if it has not, once |
| `LineStream.ChunkingIndependence` | crates/ozzie-llm/src/helpers.rs:135-218 | the deltas depend on the text alone, not on where it is cut nor on read errors between chunks |
| `LineStream.StreamRefinesBatch` | crates/ozzie-llm/src/helpers.rs:135-218 | the deltas begin with the batch result, equal it when no payload line follows the end signal, and otherwise continue in a stated way |
| `LineStream.BatchThenOverrun` | crates/ozzie-llm/src/helpers.rs:155-189 | what the stream emits is the batch result followed by the overrun |
| `LineStream.OverrunHappens` | crates/ozzie-llm/src/helpers.rs:172-182 | a line after the end signal that is still parsed |
| `LineStream.PayloadsReachTheParser` | crates/ozzie-llm/src/helpers.rs:135-218 | payloads framed as server-sent events or as lines, and cut into chunks in any way, reach the parser one by one as they were |
| `LineStream.ErrorsArePassedOn` | crates/ozzie-llm/src/helpers.rs:196-201 | read errors are passed on in order, and all of them if the parser does not end the stream |
| `LineStream.OtherFieldsAreSkipped` | crates/ozzie-llm/src/helpers.rs:159-163 | a line of an event stream that does not begin with `data: ` reaches no parser |
| `ReactLoop.RepetitionTracker.Record` | crates/ozzie-runtime/src/react.rs:182-196 | true exactly if the fingerprint occurs at least `threshold` times among the last `window_size` calls of the whole history |
| `ReactLoop.ProcessCalls` | crates/ozzie-runtime/src/react.rs:464-533 | a non-empty prefix of the calls is answered in order, cut short exactly at the first repetition and then followed by the warning, or at a yield |
| `ReactLoop.CheckLimits` | crates/ozzie-runtime/src/react.rs:362-420 | stops exactly when cancelled, out of turns, out of tokens or out of time |
| `ReactLoop.TakeTurn` | crates/ozzie-runtime/src/react.rs:409-533 | one call of the provider: it ends the loop for the reason stated, or the turn goes on with its calls answered and the transcript extended by exactly that |
| `ReactLoop.RunInner` | crates/ozzie-runtime/src/react.rs:325-535 | for every provider and tool behaviour the loop ends, each call is sent all that came before plus what was pending, and the result is what the last turn justifies |
| `ReactLoop.CallsStayInBudget` | crates/ozzie-runtime/src/react.rs:373-407 | at most `max_turns` calls, each made while the output tokens were below a nonzero limit, which is overrun by less than the last reply |
| `ReactLoop.CallsGrow` | crates/ozzie-runtime/src/react.rs:350-533 | the transcript is append-only across all calls of a run |
| `ReactLoop.CallsAreShaped` | crates/ozzie-runtime/src/react.rs:464-533 | read off the messages alone: each tool call list sent back is answered in order by a non-empty prefix, complete unless a warning follows, and no tool message stands elsewhere |
| `ReactRuns.RepeatsMeans` | crates/ozzie-runtime/src/react.rs:182-196 | a fingerprint repeats exactly if it stands at `threshold` places or more among the last `window_size`, itself included |
| `ReactRuns.SentInOrder` | crates/ozzie-runtime/src/react.rs:350-533 | each call is sent all the one before was sent, the reply to it, the result of each tool run, a warning if there was one, and one user message for each text drained, in order; the first is sent the initial messages and the drained texts |
| `ReactRuns.UserMessagesInOrder` | crates/ozzie-runtime/src/react.rs:352-360 | beyond the initial messages, the user messages of every call are exactly the drained texts and the warnings, in the order they came |
| `ReactRuns.ToolsAreRun` | crates/ozzie-runtime/src/react.rs:474-533 | after a reply that was followed by another call none of the tools run was a yield, only the last tripped the detector, and all were run unless it did |
| `ReactRuns.CallsAreAllowed` | crates/ozzie-runtime/src/react.rs:362-420 | every call is made uncancelled, in time, within the turns and while the tokens of the replies before sum to less than a nonzero limit |
| `ReactRuns.ResultTells` | crates/ozzie-runtime/src/react.rs:362-490 | the result of every run is true of its calls: the last reply's content, the sums of tokens and tools run, or the reason for stopping |
| `ToolResponse.CompactPanicsIff` | crates/ozzie-runtime/src/react.rs:38-39 | compaction panics exactly on long responses for which 1200 bytes before the end is not a character boundary |
| `ToolResponse.CompactKeepsBothEnds` | crates/ozzie-runtime/src/react.rs:19-60 | otherwise the first 8400 bytes up to the end of a character, a marker, and the last 1200 bytes, nothing twice |
| `ToolResponse.CompactShrinks` | crates/ozzie-runtime/src/react.rs:19-60 | the result is shorter than the response, if the numerals up to its line count take at most 1000 bytes each |
| `ToolResponse.CompactCanPanic` | crates/ozzie-runtime/src/react.rs:38-39 | a response on which it panics |
| `Jsonc.StripJsonc` | crates/ozzie-cli/src/config_loader.rs:105-165 | for every input the output is what a forward lexer classes as neither comment nor comma before a bracket, plus the last character after an unclosed comment with a body |
| `Jsonc.IsEscaped` | crates/ozzie-cli/src/config_loader.rs:167-185 | the run of backslashes before the position is odd |
| `Jsonc.EscapesAgree` | crates/ozzie-cli/src/config_loader.rs:167-185 | looking back gives the escape bit the lexer carries forward, in strings and in code |
| `Jsonc.LexersAgree` | crates/ozzie-cli/src/config_loader.rs:114-126 | with no backslash outside strings and comments the lexer reads strings as section 7 of RFC 8259 does |
| `Jsonc.SkipLine` | crates/ozzie-cli/src/config_loader.rs:128-134 | a line comment is skipped up to its line feed |
| `Jsonc.SkipBlock` | crates/ozzie-cli/src/config_loader.rs:136-146 | a closed block comment is skipped; an unclosed one is given up one character before the end |
| `Jsonc.TrailingComma` | crates/ozzie-cli/src/config_loader.rs:148-154 | only whitespace up to a closing bracket |
| `Jsonc.RescanFindsTheSameLiterals` | crates/ozzie-cli/src/config_loader.rs:105-165 | with no backslash in code, scanning the output again finds no comment and the same string literals exactly unless an unclosed comment ends in a quote |
| `Jsonc.UnclosedCommentCanOpenString` | crates/ozzie-cli/src/config_loader.rs:136-146 | an unclosed comment after which the output opens a string where the input has none |
| `Jsonc.CommaGoesIff` | crates/ozzie-cli/src/config_loader.rs:148-159 | a comma goes exactly if it trails to a bracket with no comment in between |
| `Jsonc.CommaBeforeCommentStays` | crates/ozzie-cli/src/config_loader.rs:148-159 | an input whose trailing comma survives |
| `Jsonc.CommaBeforeCloser` | crates/ozzie-cli/src/config_loader.rs:148-159 | right before a closing brace or bracket a comma in code goes, and before any other visible character it stays |
| `Jsonc.LineCommentGoes` | crates/ozzie-cli/src/config_loader.rs:128-134 | from two slashes in code everything up to the line feed goes, and the line feed stays |
| `Jsonc.BlockCommentGoes` | crates/ozzie-cli/src/config_loader.rs:136-146 | from slash and star in code everything up to and with the first star and slash goes |
| `Jsonc.LiteralStays` | crates/ozzie-cli/src/config_loader.rs:114-126 | a string literal without quotes and backslashes inside stays to the letter, whatever it looks like |
| `Jsonc.BackslashCanMeetQuote` | crates/ozzie-cli/src/config_loader.rs:114-146 | an input, with a backslash in code, whose string literal is no longer one in the output |
| `Frontmatter.ArrayRoundTrip` | worm/worm-memory/src/page_frontmatter.rs:124-144 | a non-empty array comes back as printed exactly if every tag is non-empty, comma-free and without a quotation mark at either end |
| `Frontmatter.UnbracketedIsOneItem` | worm/worm-memory/src/page_frontmatter.rs:124-132 | a value without brackets is one item, and a blank one none |
| `Frontmatter.ArrayIsWritten` | worm/worm-memory/src/page_frontmatter.rs:13-20 | tags are written in double quotes, separated by comma and blank, in brackets |
| `Frontmatter.TitleRoundTrip` | worm/worm-memory/src/page_frontmatter.rs:105-122 | title and trimmed content come back exactly unless both are blank |
| `Frontmatter.SplitDocument` | worm/worm-memory/src/page_frontmatter.rs:93-103 | the splitter cuts a printed document at the end of its header |
| `Frontmatter.DocumentRoundTrip` | worm/worm-memory/src/page_frontmatter.rs:34-71 | every header line, the title and the trimmed content are read back |
| `Frontmatter.NoHeaderNoDocument` | worm/worm-memory/src/page_frontmatter.rs:93-97 | text that does not begin with three dashes is no document |
| `Frontmatter.FirstLineIsTitle` | worm/worm-memory/src/page_frontmatter.rs:115-121 | a body without a leading hash has its first line as title all the same |
| `PageFrontmatter.Print` | worm/worm-memory/src/page_frontmatter.rs:7-31 | the buffer the printer builds is the document of the page's fields |
| `PageFrontmatter.Parse` | worm/worm-memory/src/page_frontmatter.rs:34-86 | the loop over the lines sets the fields in order over the defaults |
| `PageFrontmatter.PageRoundTrip` | worm/worm-memory/src/page_frontmatter.rs:7-144 | parsing a printed page gives back the page and the trimmed content exactly unless title and content are both blank |
| `PageFrontmatter.PageIsWritten` | worm/worm-memory/src/page_frontmatter.rs:7-31 | the layout of a page's file, line by line |
| `PageFrontmatter.AnyHeaderIsRead` | worm/worm-memory/src/page_frontmatter.rs:34-86 | a header with lines missing, repeated, unknown or in any order is read line by line: the last value of each key counts, unreadable dates are passed over, an unreadable revision is 1, and the rest is default |
| `EntryFrontmatter.Parse` | worm/worm-memory/src/frontmatter.rs:34-93 | the loop over the lines sets the fields in order over the defaults |
| `EntryFrontmatter.EntryRoundTrip` | worm/worm-memory/src/frontmatter.rs:7-157 | parsing a printed entry gives back every serialized field and the trimmed content, and the parser's defaults for use, indexing and merge data |
| `EntryFrontmatter.EntryIsWritten` | worm/worm-memory/src/frontmatter.rs:7-32 | the layout of an entry's file, line by line |
| `EntryFrontmatter.AnyHeaderIsRead` | worm/worm-memory/src/frontmatter.rs:34-93 | a header with lines missing, repeated, unknown or in any order is read line by line, with the parser's fallback for each key |
| `PageStore.MarkdownPageStore.Upsert` | worm/worm-memory-sqlite/src/page_store.rs:236-296 | the page as stamped, the table and the files after an upsert |
| `PageStore.MarkdownPageStore.Delete` | worm/worm-memory-sqlite/src/page_store.rs:342-365 | row and file go together, or nothing is found |
| `PageStore.MarkdownPageStore.CleanupOrphans` | worm/worm-memory-sqlite/src/page_store.rs:205-227 | exactly the rows with a seen slug remain |
| `PageStore.MarkdownPageStore.RebuildIndex` | worm/worm-memory-sqlite/src/page_store.rs:97-130 | if the files name distinct pages, the table holds exactly their rows, whatever the directory order and the old table |
| `PageStore.UpsertAgrees` | worm/worm-memory-sqlite/src/page_store.rs:236-296 | rows and files stay in agreement exactly unless a page is created under an id another page has |
| `PageStore.OrphanedFile` | worm/worm-memory-sqlite/src/page_store.rs:273-291 | otherwise that other page keeps its file and has no row |
| `PageStore.OneIdForTwoPages` | worm/worm-memory-sqlite/src/page_store.rs:236-296 | two upserts under one id from an empty store after which rows and files disagree |
| `PageStore.DeleteAgrees` | worm/worm-memory-sqlite/src/page_store.rs:342-365 | deleting keeps rows and files in agreement |
| `PageStore.RunsAgreeIff` | worm/worm-memory-sqlite/src/page_store.rs:236-365 | whatever ids pages carry, rows and files agree all through a run exactly if no upsert in it creates a page under an id that a page has |
| `PageStore.RevisionsCount` | worm/worm-memory-sqlite/src/page_store.rs:244-266 | an upsert of a live slug keeps its id and raises its revision by exactly one; a new slug starts at one |
| `PageStore.UpsertStores` | worm/worm-memory-sqlite/src/page_store.rs:236-296 | after an upsert the slug's row holds exactly the given content, title, tags and sources, updated now and created now if new; its file is the printed row |
| `PageStore.UpsertedFileParses` | worm/worm-memory-sqlite/src/page_store.rs:286-296 | the file of an upserted page parses to the page as stored and the given content, trimmed |
| `PageStore.LastUpsertIsKept` | worm/worm-memory-sqlite/src/page_store.rs:236-365 | after any run under the store's own ids a slug is live exactly if it was upserted and not deleted since, and its row and file hold what came last |
| `PageStore.HiddenFilesAreSkipped` | worm/worm-memory-sqlite/src/page_store.rs:97-130 | a file whose name starts with an underscore makes no difference to the rebuilt table |
| `PageStore.UnnamedFilesAreSkipped` | worm/worm-memory-sqlite/src/page_store.rs:97-130 | a file stands for no row exactly if its header gives no id or no slug |
| `PageStore.RunsAgree` | worm/worm-memory-sqlite/src/page_store.rs:236-365 | rows and files describe the same pages, under the store's own ids, after any run whose upserts are of live slugs or of pages that carry no id or the store's own |
| `PageStore.RevisionsAreCounted` | worm/worm-memory-sqlite/src/page_store.rs:236-365 | after any such run a slug's revision is the number of its upserts since its page was last created, and 0 if there is none |
| `PageStore.RebuildReproduces` | worm/worm-memory-sqlite/src/page_store.rs:97-130 | a rebuilt table is the old one with contents trimmed, and nothing else is |
| `CircuitBreaker.Breaker.Allow` | crates/ozzie-llm/src/resilience.rs:51-67 | admits exactly when the log says so; the fields stay what the log says |
| `CircuitBreaker.Breaker.RecordSuccess` | crates/ozzie-llm/src/resilience.rs:70-74 | Closed exactly if fewer than `threshold` failures (at least one) were recorded since the last success |
| `CircuitBreaker.Breaker.RecordFailure` | crates/ozzie-llm/src/resilience.rs:77-85 | the same after a failure; while not Closed the opening time is that of the latest failure |
| `CircuitBreaker.ProbesAreSpaced` | crates/ozzie-llm/src/resilience.rs:51-85 | a probe comes at least a cooldown after the latest failure, and between two probes there was a failure |
| `CircuitBreaker.UnrecordedProbeBlocks` | crates/ozzie-llm/src/resilience.rs:64-65 | while a probe has no recorded result every call is refused, at any time |
| `CircuitBreaker.FallbackProvider.Chat` | crates/ozzie-llm/src/fallback.rs:37-67 | the primary is asked exactly if admitted, and the fallback serves when it is not or fails |
| `CircuitBreaker.FallbackServesIff` | crates/ozzie-llm/src/fallback.rs:42-67 | the fallback serves exactly the requests the breaker refuses and those on which the primary fails |
| `CircuitBreaker.DroppedProbeIsForever` | crates/ozzie-llm/src/fallback.rs:42-92 | after one dropped probe every later request, however late, is served by the fallback |
| `CircuitBreaker.AskedAgainIff` | crates/ozzie-llm/src/fallback.rs:42-92 | after a probe some later request reaches the primary exactly if the probe is not dropped |
| `CircuitBreaker.PrimaryCanBeLost` | crates/ozzie-llm/src/fallback.rs:42-92 | three refusals and a minute later a dropped request, after which the primary is never asked again |
| `Consolidation.MemoryStore.MergeGroup` | worm/worm-memory/src/consolidation.rs:113-187 | a failed or too small group changes nothing; a merged one adds the target and links every member whose update works |
| `Consolidation.MergesIff` | worm/worm-memory/src/consolidation.rs:113-172 | a group is merged exactly if two of its members are found and nothing goes wrong; with fewer nothing is tried |
| `Consolidation.MergeLeaves` | worm/worm-memory/src/consolidation.rs:155-187 | a merge leaves the new entry with its content, each found member whose update works linked to it, and everything else as it was |
| `Consolidation.MemoryStore.Consider` | worm/worm-memory/src/consolidation.rs:72-107 | one entry is skipped for want of a partner, fails without a change, or forms a group with partners not merged yet |
| `Consolidation.MemoryStore.Run` | worm/worm-memory/src/consolidation.rs:59-111 | no entry is removed, groups are disjoint and come from the searches, members are linked to their target, entries outside groups are untouched, links stay forward if no generated id is listed or found, errors count the failed merges, and every listed entry was grouped, failed, or had no partner left |
| `Consolidation.RunAll` | worm/worm-memory/src/consolidation.rs:59-187 | any number of runs keep every link pointing to a later entry, if no generated id is already listed or found |
| `Consolidation.MergeKeepsForward` | worm/worm-memory/src/consolidation.rs:172-183 | links stay forward exactly if the new id does not already name a member of the group |
| `Consolidation.Final` | worm/worm-memory/src/consolidation.rs:174-183 | following links always ends, at an unmerged entry created no earlier |
| `ConversationRegistries.ConversationRegistry.ResolveOrCreateForCoord` | crates/ozzie-runtime/src/conversation_registry.rs:91-125 | store, bindings and result of resolving a coordinate, store faults included |
| `ConversationRegistries.ConversationRegistry.BootstrapActiveFromStore` | crates/ozzie-runtime/src/conversation_registry.rs:57-78 | bindings and active id rebuilt from a listing |
| `ConversationRegistries.ConversationRegistry.ArchiveConversation` | crates/ozzie-runtime/src/conversation_registry.rs:278-312 | refused while a loop runs or when the store fails; otherwise archived, and the active id cleared if it was this one |
| `ConversationRegistries.ConversationRegistry.UnarchiveConversation` | crates/ozzie-runtime/src/conversation_registry.rs:317-326 | active again and the active id unchanged, or nothing at all if the store fails |
| `ConversationRegistries.ConversationRegistry.SetActive` | crates/ozzie-runtime/src/conversation_registry.rs:179-196 | sets the active id and returns the previous one |
| `ConversationRegistries.ConversationRegistry.Touch` | crates/ozzie-runtime/src/conversation_registry.rs:208-229 | sets the active id and returns the previous one only if it changed |
| `ConversationRegistries.ConversationRegistry.CreateConversation` | crates/ozzie-runtime/src/conversation_registry.rs:234-251 | stores an unbound conversation and makes it active |
| `ConversationRegistries.CoordinatesNeverShare` | crates/ozzie-runtime/src/conversation_registry.rs:91-125 | two coordinates are never bound to one conversation |
| `ConversationRegistries.CreatedKeepsSound` | crates/ozzie-runtime/src/conversation_registry.rs:108-115 | bindings stay sound exactly if no other coordinate is bound to the generated id |
| `ConversationRegistries.ResolveGivesActive` | crates/ozzie-runtime/src/conversation_registry.rs:91-125 | resolving gives an active conversation that carries the coordinate, leaves the active id and every other binding alone |
| `ConversationRegistries.ResolveIsStable` | crates/ozzie-runtime/src/conversation_registry.rs:96-105 | resolving again gives the same conversation and changes nothing |
| `ConversationRegistries.ArchiveMakesFresh` | crates/ozzie-runtime/src/conversation_registry.rs:87-105 | after its conversation is archived a coordinate gets a fresh one |
| `ConversationRegistries.RefusedChangesNothing` | crates/ozzie-runtime/src/conversation_registry.rs:234-326 | which archive, unarchive and create calls are refused, and that a refused one changes nothing |
| `ConversationRegistries.ArchiveAndBack` | crates/ozzie-runtime/src/conversation_registry.rs:278-326 | archiving takes the focus off the conversation and nothing else; unarchiving makes it active again without giving the focus back |
| `ConversationRegistries.CreatedHasFocus` | crates/ozzie-runtime/src/conversation_registry.rs:234-251 | a created conversation is active, unbound and has the focus, and no other changes |
| `ConversationRegistries.ResolveFailsIff` | crates/ozzie-runtime/src/conversation_registry.rs:91-125 | resolving fails exactly if the needed store call does, stores nothing then, and drops the binding if creating failed |
| `ConversationRegistries.RestartResolves` | crates/ozzie-runtime/src/conversation_registry.rs:57-105 | after a restart a coordinate gets a conversation back exactly if it is active and the last listed with that coordinate |
| `ConversationRegistries.RestartCanLoseConversation` | crates/ozzie-runtime/src/conversation_registry.rs:57-125 | three calls and a listing after which a coordinate loses its active conversation |
| `ConversationRegistries.RestartFocusesMostRecent` | crates/ozzie-runtime/src/conversation_registry.rs:69-78 | the active id is the first listed of the most recently updated active conversations |
| `ConversationRegistries.RunsAreSound` | crates/ozzie-runtime/src/conversation_registry.rs:57-326 | after any calls and restarts with fresh ids every binding names a stored conversation that carries the coordinate |
| `RpcClient.Client.ReadFrame` | crates/ozzie-client/src/connection.rs:313-318 | buffered frames come first, in order; nothing is lost or repeated |
| `RpcClient.Client.ReadFrameFromWs` | crates/ozzie-client/src/connection.rs:518-539 | the next frame, control messages skipped |
| `RpcClient.Client.Request` | crates/ozzie-client/src/connection.rs:542-588 | delivered then buffered frames remain the arrivals in order without the matched responses; one id is issued |
| `RpcClient.AwaitTakesFirstAnswer` | crates/ozzie-client/src/connection.rs:562-587 | a wait ends with the first frame that answers the request and buffers only frames that do not |
| `RpcClient.FirstItemDecides` | crates/ozzie-client/src/connection.rs:518-539 | the first item that is not a control message decides a read: a frame, or the error of its kind |
| `RpcClient.TimesOutIff` | crates/ozzie-client/src/connection.rs:555-587 | a wait times out exactly if its patience ran out on frames that do not answer |
| `RpcClient.ReplyTells` | crates/ozzie-client/src/connection.rs:562-587 | an answer that carries an error is returned as that error and any other as it is; without an answer the wait's own error is returned |
| `RpcClient.IdsAreNeverReused` | crates/ozzie-client/src/connection.rs:547-547 | the ids a client has issued are all different and the next one is new, so a late answer to one request never answers another |

## Left out

- Sockets, HTTP, SQLite, file systems and task scheduling: stores are maps, the bus is a lossless queue, and broadcast lag (event_runner.rs:280-282) is not modelled.
- File writes that fail after a page's row was written: the store then holds a row without a file, which the model of `Upsert` does not include.
- Integer width: counters, revisions and token sums are unbounded.
- Floating point: scores, bonuses and confidences are reals; 45% of the prompt is computed exactly, which agrees with the source's multiplication for every prompt below 2^48 tokens.
- Number and date formatting: assumed to be inverses on the values printed, as hypotheses of the round trips.
- The checksum itself: absence of collisions among the transcripts involved is a hypothesis where it is needed.
- BM25 scoring, keyword extraction, token estimation, embeddings: parameters.
- Chunks of a response that cut a character in two: a chunk is its text.
- What a `$ref` points to: it is resolved by the same oracle before and after normalisation, so a reference to the root, which is normalised, is not followed into the new root; `definitions` are left alone by the source too.
- Images, titles, events emitted to observers, and the wording of log, decision and budget messages.
- NormalizeSchema: the source overwrites an owned tree in place; the model's methods update a value and return it, so aliasing (there is none) is not modelled.
- CompactShrinks: assumes that each numeral up to the line count takes at most 1000 bytes.
- ProbesAreSpaced: speaks of the clock readings recorded with the failures; each breaker call is one atomic step, though `record_success` clears the counter before it takes the lock.
- Truncation of histories to a context window, coverage of pages by clusters, file names and slugs, template expansion, retry delays: they would only add easy members.
- Tool-call parsing from text, prompt composition, tool and provider registries, the terminal UI, bridges, encryption, authentication and pairing.
