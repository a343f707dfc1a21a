# harness_kit: a verified model

harness_kit is a multi-tenant agent service. A turn builds a budgeted context from a conversation's memory, asks a
language model, runs the tool calls it wants concurrently and behind an approval gate, and records the turn. Off the hot
path, old turns are folded into a rolling summary, idle conversations are embedded as points of a vector store, and a
batch job merges near-duplicate points. This project models that logic in Dafny and proves what it promises over all
inputs, all runs and all interleavings. `dafny verify dfyconfig.toml` checks everything.

Classes follow the source's classes and fields (the agent's methods are spread over `Agent`, `ConversationKeeper` and
`TurnLoop`); each method is proved against a function of its inputs and the old state (`...Step`, `Allocation`,
`Attempts`, ...), and the lemmas then say what those functions promise. The concurrent fan-out, the
endings of conversations, the overlapping rollovers and the overlapping Redis writers are transition systems. Times,
scores and tokens of a bucket are `real`; strings are `seq<char>`.

| files | what they model |
|---|---|
| `ToolFanOut`, `FanOutHistory`, `FanOutProgress`, `ApprovalSafety`, `ApprovalOutcomes`, `BatchOrigins` | concurrent tool workers, the fan-in loop, pending approvals and what they decide, any number of batches at once |
| `TurnLoop`, `TurnResults`, `Records`, `Requests` | the iteration loop of a turn, what it says, records and costs, and what the model is sent over whole histories |
| `Sessions`, `RedisSessions`, `RedisAgreement`, `RedisExpiry`, `RedisOverlaps`, `Ownership` | the in-memory session store, the Redis one with its two sorted-set indexes, when the two answer alike, overlapping writers, and whom a session is given to |
| `WorkingMemory`, `Conversations`, `RolloverOverlaps` | rollover, conservation of turns, pairing of tool calls and results; rollovers that overlap turns and each other |
| `Lifecycle`, `Endings`, `DisturbedEndings`, `Evictions`, `EvictionBounds` | ending a conversation and the idle sweep; endings, sweeps, rollovers and turns interleaved; finalize-before-evict and its exact conditions |
| `Budgeter`, `ContextBuilder` | token allocation and context assembly |
| `LruCache`, `DictView`, `RateLimiter`, `RateLimitBounds`, `RateLimitBursts`, `ToolRegistry`, `ToolExecution`, `ToolOutcomes` | bounded LRU dictionary, token buckets, the registry's checks and what a call gives |
| `VectorStore`, `Retry`, `Episodic`, `Decay`, `MemoryRuns`, `Lineage` | vector store and paging, retried writes, episodic points, retrieval with age decay, runs that mix finalizing, forgetting and deduplication, and what their merged points stem from |
| `UnionFind`, `MergeIds`, `Deduplicator`, `DeduplicationOutcome`, `DeduplicationRuns`, `MergedContents`, `DeduplicationFailures` | the deduplication job, also with writes that raise |
| `Permissions` | the in-memory and the row-based permission stores |
| `Types`, `Sequences`, `OrderedDict`, `Sorting`, `Text` | shared records, Python's dictionaries, slices, stable sort and strings |

Where the code does less than its comments or its configuration say, the model follows the code, and a lemma gives the
exact condition under which the promise holds:

- The context re-renders the factual block, so a block the budgeter dropped is still sent, and what is sent fits if and
  only if tier 0 and that block do (`SentContextFitsIff`, `DroppedFactualOvershoots`, `DroppedFactualOverflows`).
- A rollover saves over whatever was appended, or folded away by another rollover, since it loaded
  (`OverlapConservesIff`, `RolloversConserveIff`).
- A persist that raises partway, or that something raises after, is run again (`ExactlyOnceIff`, `TurnRecordedOnceIff`),
  and one that stops behind a call turn leaves a call without its result (`PartialRecordFollowedIff`,
  `ContextAnsweredIff`).
- An answer from another conversation uses up a pending approval (`OwnerCanAnswerIff`, `LostCallNeverExecutes`).
- `end_conversation` reads the transcript, awaits its embedding and then sets the mark: when a turn is appended or a
  rollover saves in between, what is marked has not been embedded, is never queued again and is lost with the session,
  whatever the configuration (`DisturbedEndingIff`, `AppendsDisturbIff`, `RolloverDisturbsIff`, `AppendLoses`,
  `RolloverLoses`).
- `idle_finalize_s < ttl_s` does not by itself prevent eviction before embedding (`GapBoundIsExact`).
- In Redis an append, or a mark, writes back the whole document it read: what was written in between is lost
  (`AppendsConservedIff`, `OverlappedMarkKeepsIff`).
- The two session stores answer differently once something expires (`StoresAgreeIff`): an append to an expired session
  revives it in memory and fails in Redis, and a sweep then queues it in memory only (`SavedAnswersIff`); marking a
  session finalized renews its expiry in Redis only (`MarkRenewsOnlyRedis`).
- A rollover budget under 128 tokens can separate a tool result from its call (`SmallBudgetSeparates`).
- The rate limit's window bound fails once more pairs are in use than the cache holds (`EvictionBreaksBound`).
- `forget_conversation` returns the number of ids it named, not of points it deleted (`ForgetCountIsExactIff`), and with a
  negative maximum names none of the moments that were kept (`KeptMomentsAreForgottenIff`,
  `NegativeMaximumLeavesMoments`). A merged point that stems from a forgotten conversation stays (`ForgetClearsIff`,
  `ForgetErasesIff`), and after a second merge no longer lists it (`SecondMergeHides`).
- Finalizing again with fewer flagged moments leaves the earlier, higher ones in place (`WriteUpserts`).
- Merge ids join conversation ids with colons, which ids may contain (`ColonsCollide`); a reused merge id overwrites a
  point that lists the same conversations (`RunReplacesIffFresh`, `MergedIdReusedIff`, `OverwrittenListsSame`) or loses
  the new one to a later group (`MergedLastsIff`, `FateOfPoint`).
- In the row-based permission store the default lives in the row of a user named `__default__`
  (`AgreementKeptIff`, `SentinelGrantLeaks`).

## Model

| member | source | states |
|---|---|---|
| FanOutHistory.CompletedHistory | src/harness_kit/agent/loop.py:184-312 | in every schedule of every set of batches: a completed batch has every worker finished, every slot filled, an empty queue, each worker's items in order, and messages and turns equal to the outcomes' in call order, even with duplicate ids |
| FanOutHistory.OneMarkerLast | src/harness_kit/agent/loop.py:192-265 | a finished worker's items hold exactly one done marker, the last one |
| FanOutHistory.HistoryIgnoresSchedule | src/harness_kit/agent/loop.py:274-312 | two completed batches with equal calls and outcomes leave equal histories, whatever the two schedules |
| FanOutHistory.NeverCrashes | src/harness_kit/agent/loop.py:288-312 | no reachable state meets an unfilled slot in the loop over the results |
| FanOutHistory.InvStep | src/harness_kit/agent/loop.py:202-312 | every step of every worker, answer, take, close and reap keeps the flow invariant of all batches |
| FanOutProgress.StepCost | src/harness_kit/agent/loop.py:202-308 | each step lowers the remaining worker steps plus queue of its own batch and of no other |
| FanOutProgress.BoundedWork | src/harness_kit/agent/loop.py:290-308 | a batch takes no more steps than its cost, so the fan-in loop ends in every schedule |
| FanOutProgress.OpeningCost | src/harness_kit/agent/loop.py:281-289 | a batch of n calls can take at most 7n + 2 steps |
| FanOutProgress.NeverStuck | src/harness_kit/agent/loop.py:290-297 | while the fan-in loop waits, some worker or the loop itself can move |
| FanOutProgress.ClosingEnds | src/harness_kit/agent/loop.py:298-308 | an abandoned batch can always be cancelled further or reaped |
| ApprovalSafety.GatedCallsNeedApproval | src/harness_kit/agent/loop.py:203-236 | in every reachable state, an execution of a gated tool began only after an approval that carried its conversation and hit its own entry |
| ApprovalSafety.NoEntryOutlivesItsWait | src/harness_kit/agent/loop.py:204-222 | pending entries belong to workers still waiting; none outlives an answer, a timeout, a cancellation or its batch, even with repeated ids |
| ApprovalSafety.OwnerCanAnswerIff | src/harness_kit/agent/loop.py:351-363 | the owner's answer settles a waiting call if and only if no other conversation answered for it before |
| ApprovalSafety.LostCallNeverExecutes | src/harness_kit/agent/loop.py:351-363 | a call whose entry a stray answer used up never executes |
| ApprovalSafety.PendingStep | src/harness_kit/agent/loop.py:203-222 | every step keeps: entries point at waiting workers, and no unstarted worker has an answer |
| ApprovalSafety.GateIs | src/harness_kit/agent/loop.py:203-205 | in every reachable state the workers behind the approval gate are those of the gated tools, and no others |
| ApprovalOutcomes.AnsweredCallGoesOn | src/harness_kit/agent/loop.py:216-236 | in every reachable state a waiting call that its owner answered can go on: a yes leaves it executing, its start queued and recorded; a no ends it as denied, with that queued and its slot filled |
| ApprovalOutcomes.GatedOutcomes | src/harness_kit/agent/loop.py:203-265 | in every reachable state a call is denied only if its owner said no; a gated call that ended without timing out was denied if and only if the owner said no, and reached its handler if and only if the owner said yes; an ungated call is never denied and never times out |
| ApprovalOutcomes.CompletedGate | src/harness_kit/agent/loop.py:203-312 | so every gated call of a completed batch ended as its owner answered, or timed out |
| ApprovalOutcomes.EndsAsItHappened | src/harness_kit/agent/loop.py:216-265 | over every run a call is recorded as returned with an observation, raised, timed out or cancelled if and only if that is what happened to it |
| ApprovalOutcomes.OutcomeIsTold | src/harness_kit/agent/loop.py:223-265 | a denial, a timeout and an exception are told apart in what the model reads, the client is shown the same as not ok, and what a handler returned is told whole |
| BatchOrigins.BatchesAreOpened | src/harness_kit/agent/loop.py:267-287 | in every reachable state the batches are the replies' calls that were opened, each with its conversation and its calls in their order |
| BatchOrigins.OneResultPerCall | src/harness_kit/agent/loop.py:291-312 | so a completed batch leaves one result message for each call of its reply, in that order, even with duplicate ids |
| BatchOrigins.BeginAsksIff | src/harness_kit/agent/loop.py:203-235 | in every reachable state a call that begins is asked about and waits under its id if its tool is gated, and otherwise starts at once |
| TurnLoop.RunLoop | src/harness_kit/agent/loop.py:104-159 | messages, texts, tool turns and usage are those of exactly the answers received; iterations and stop reason match |
| TurnLoop.RunTurn | src/harness_kit/agent/loop.py:118-182 | the record persisted, once, or again after a failed persist or anything that raises after it; the usage, the number of iterations begun, and the reported end |
| TurnLoop.CompletesIff | src/harness_kit/agent/loop.py:119-159 | a turn completes exactly when its last answer has no calls; only that answer can lack them; requests never exceed the iteration cap |
| TurnResults.StopsBecause | src/harness_kit/agent/loop.py:119-159 | the loop receives the model's replies one after the other, all in time, and stops with the reason that its next iteration meets: the cap, the spent budget, a stream without an end, an exception; or because the last reply has no calls |
| TurnResults.UsageAdds | src/harness_kit/agent/loop.py:480-485 | the usage of a turn is the sum of its replies' in each of the three counts |
| TurnResults.AllIsSaid | src/harness_kit/agent/loop.py:140-141 | the answer recorded for a turn has every character of every reply but white space, in order |
| TurnResults.ReturnedCallsAreRecorded | src/harness_kit/agent/loop.py:245-251 | the tool turns of a turn are two for each call that returned, in call order: the call, and its result as displayed under its id, both as of when it returned |
| TurnResults.RequestTells | src/harness_kit/agent/loop.py:148-156 | every later request of a turn begins with the assembled context and carries each earlier reply with calls: its text, its calls, and directly after them one message a call, with the whole observation of each that returned |
| TurnLoop.EveryRequestAnswered | src/harness_kit/agent/loop.py:125-156 | from a well-answered context, every request has each call message directly followed by one result per call, in order |
| TurnLoop.FailedPersistAddsNothing | src/harness_kit/agent/loop.py:171-177 | over the in-memory store a persist fails only for a missing session, so persisting again adds nothing |
| TurnLoop.TurnRecordedOnceIff | src/harness_kit/agent/loop.py:161-182 | a turn of a live session adds its record exactly once if and only if nothing raises after the persist the loop came to; else the record is there twice |
| Requests.ContextAnsweredIff | src/harness_kit/agent/context.py:95-123 | after every run of turns and rollovers, turns persisted partly or twice included, the assembled context has all its calls answered, once each and in order, if and only if in the part of the buffer it takes every call turn is followed by its result |
| Requests.ContextAnswered | src/harness_kit/agent/context.py:95-123 | so it has, after every run in which no persist, first or repeated, stopped right behind a call turn |
| Requests.EveryRequestOfAHistory | src/harness_kit/agent/loop.py:104-156 | after such a run the same holds for every request of the next turn, whatever the model asks for and however its calls end |
| Requests.PartialRecordFollowedIff | src/harness_kit/agent/loop.py:329-332 | a persist cut after n turns leaves an unanswered call if and only if the n-th turn is a call turn |
| Conversations.Agent.Persist | src/harness_kit/agent/loop.py:314-332 | appends the user turn, the final text and the tool turns, stopping at the first failure; the record is what RecordSays describes |
| Records.RecordSays | src/harness_kit/agent/loop.py:323-332 | a record is the user's message; then, if and only if some answer has a character that is not white space, one assistant turn without calls that has exactly those characters of the answers and neither begins nor ends in white space; then exactly the tool turns |
| Records.PersistSays | src/harness_kit/agent/loop.py:314-332 | after the persist of a turn of a live session its buffer has grown by just such a record |
| Records.AnswerIsSent | src/harness_kit/agent/context.py:101-123 | a context built next, if the whole buffer fits, has the user's message directly followed by the answer |
| Conversations.AppendAllAdds | src/harness_kit/stores/memory_session.py:48-54 | appending a record to a live session succeeds, adds it at the end and clears the mark |
| Conversations.TurnsConserved | src/harness_kit/memory/working.py:105-167 | over every run, all turns appended are those evicted by successful rollovers followed by the buffer, in order, each evicted text summarized once |
| Conversations.FoldedOnce | src/harness_kit/memory/working.py:149-167 | the lines of all summarizer calls together are the lines of all evicted turns |
| Conversations.OverlapConservesIff | src/harness_kit/memory/working.py:114-131 | a rollover conserves turns if and only if nothing was appended between its load and its save; what was appended is what is lost |
| RolloverOverlaps.RolloversConserveIff | src/harness_kit/memory/working.py:105-131 | however appends and any number of rollovers overlap, every turn is folded away exactly once or still in the buffer, in order, if and only if no rollover saved over turns appended, or folded away by another, since it loaded |
| Conversations.ExactlyOnceIff | src/harness_kit/agent/loop.py:161-177 | a record persisted twice is stored exactly once if and only if one of the two tries wrote nothing and the other all |
| Conversations.RecordPaired | src/harness_kit/agent/loop.py:245-251 | every record, even cut short and written again, has each tool turn directly after the turn with its call |
| Conversations.PairedHistory | src/harness_kit/memory/working.py:133-144 | over every run with a budget of at least 128, the stored buffer keeps that pairing |
| Conversations.ToolResultsStayWithCalls | src/harness_kit/agent/budgeter.py:100-109 | and so does every assembled message list, whatever the token budget |
| Conversations.SmallBudgetSeparates | src/harness_kit/memory/working.py:133-144 | with any smaller budget there is a run after which a result has lost its call |
| WorkingMemories.WorkingMemory.SplitForRollover | src/harness_kit/memory/working.py:133-144 | computes the kept and evicted parts |
| WorkingMemories.WorkingMemory.NeedsRollover | src/harness_kit/memory/working.py:101-103 | sums the turns' tokens: true exactly when the buffer is over budget, and for more than one turn exactly when a rollover would evict some |
| WorkingMemories.WorkingMemory.MaybeRollover | src/harness_kit/memory/working.py:105-131 | one uninterrupted rollover, with every early return |
| WorkingMemories.RollsIff | src/harness_kit/memory/working.py:117-167 | a rollover happens if and only if the buffer is over budget with more than one turn, some evicted turn has text, and the reply is a new summary that is not empty; that summary and the kept end then replace the old ones, and nothing else changes |
| WorkingMemories.RolloverLeaves | src/harness_kit/memory/working.py:112-131 | an uninterrupted rollover by its owner saves what RollsIff describes, as of its save and unmarked; it evicts an expired session, and leaves anyone else's and every other session alone |
| WorkingMemories.SplitIsLongest | src/harness_kit/memory/working.py:133-144 | nothing is lost, the newest turn stays, the kept part fits unless it is that turn, and every longer end is over budget |
| WorkingMemories.EvictsIff | src/harness_kit/memory/working.py:133-144 | the split evicts something if and only if the buffer is over budget and has more than one turn |
| WorkingMemories.SplitAgain | src/harness_kit/memory/working.py:133-144 | splitting the kept part again evicts nothing |
| Lifecycle.ConversationKeeper.Peek | src/harness_kit/agent/loop.py:383-387 | the transcript of an owned, live session, or nothing; an expired session is evicted |
| Lifecycle.ConversationKeeper.EndConversation | src/harness_kit/agent/loop.py:365-392 | one uninterrupted ending, with its two times: embeds the transcript if there is a memory and a text, then marks, unless embedding or marking raises |
| Lifecycle.ConversationKeeper.SweepIdle | src/harness_kit/agent/loop.py:394-416 | ends the work queue one after the other, each at its own times; one that raises does not stop the others |
| Lifecycle.SweepFacts | src/harness_kit/agent/loop.py:402-416 | what such a sweep does to each conversation: a queued one is marked and embedded unless its ending raised, all others are untouched |
| Text.TranscriptGrowsIff | src/harness_kit/memory/episodic.py:213-219 | appending turns changes the stripped transcript if and only if one of them has text |
| Text.TranscriptSays | src/harness_kit/memory/episodic.py:213-219 | up to white space a transcript is the summary and then, for each turn with text, who spoke, a colon and the text; it neither begins nor ends in white space |
| Endings.UninterruptedEnding | src/harness_kit/agent/loop.py:382-392 | an ending whose three steps follow each other is the uninterrupted one |
| Endings.ConsistentStep | src/harness_kit/agent/loop.py:382-416 | every event of turns, loads, endings and sweeps, raising ones included, keeps: marked means embedded, and all endings of a conversation under way carry its transcript; unless it is activity of a conversation being ended |
| Endings.MarkMeansEmbedded | src/harness_kit/agent/loop.py:388-392 | in every interleaved run, however late sweeps are and whatever raises, a set mark means the present transcript is embedded, if nothing was saved or appended to the conversation between a peek and its mark |
| Endings.EmbeddedIff | src/harness_kit/agent/loop.py:382-392 | in every run, whatever overlaps, another ending's write included, a present transcript is embedded if and only if it is empty or the last text that any ending of the conversation wrote |
| Evictions.KeptStep | src/harness_kit/stores/memory_session.py:30-67 | every event keeps the watch on a session: unmarked ones were not idle when the last clean sweep began, and the present sweep has them still to do |
| Evictions.NothingLost | src/harness_kit/stores/memory_session.py:30-67 | with idle + gap <= ttl, a negative idle time counting as none, and clean sweeps begun at most gap ago, no session is evicted before its latest transcript was embedded, if its endings were not disturbed |
| DisturbedEndings.DisturbedEndingIff | src/harness_kit/agent/loop.py:383-392 | an ending that overlaps any appends and saves marks the session all the same; what it holds is then embedded if and only if it is empty or the text of the peek, or, with nothing to embed at the peek, what an earlier life had left |
| DisturbedEndings.AppendsDisturbIff | src/harness_kit/memory/episodic.py:213-219 | when only turns were appended, that is so if and only if none of them has text |
| DisturbedEndings.RolloverDisturbsIff | src/harness_kit/memory/working.py:119-131 | a rollover that succeeds keeps the transcript if and only if its summary is, up to white space, the old summary and the very lines it evicts |
| DisturbedEndings.IdleEndingEmbeds | src/harness_kit/agent/loop.py:342-392 | an ending during which no rollover succeeds and no turn with text is appended embeds what it marks |
| EvictionBounds.DisturbedEndingLoses | src/harness_kit/agent/loop.py:383-392 | for every ttl, idle and gap, and sweeps as frequent as wanted, one append or save that leaves another transcript gives a run in which the session is marked, never queued again, and evicted without being embedded |
| EvictionBounds.AppendLoses | src/harness_kit/agent/loop.py:383-392 | any turn with text does that |
| EvictionBounds.RolloverLoses | src/harness_kit/agent/loop.py:342-392 | any rollover does whose summary is not blank and not the very text it replaces |
| EvictionBounds.GapBoundIsExact | src/harness_kit/config/schema.py:59-77 | for every configuration, no run of undisturbed endings with clean sweeps at most gap apart loses a transcript if and only if idle + gap <= ttl, a negative idle time counting as none |
| Sessions.InMemorySessionStore.Load | src/harness_kit/stores/memory_session.py:30-41 | absent, evicted when expired, refused to others, or the session; MemoryLoadIff says exactly when |
| Ownership.MemoryLoadIff | src/harness_kit/stores/memory_session.py:30-41 | a session that is stored and not expired is loaded if and only if the asking user owns it, and refused as unauthorized otherwise; a load changes nothing but that it evicts this session when expired |
| Ownership.RedisLoadIff | src/harness_kit/stores/redis_session.py:119-128 | likewise in Redis, of the sessions whose key is alive |
| Ownership.LoadsAreOwners | src/harness_kit/stores/redis_session.py:119-140 | over every run of requests, in both stores, a load gives a session only to the user of its last save |
| Ownership.UnsavedIsAbsent | src/harness_kit/stores/redis_session.py:119-140 | and a session that was never saved is loaded for nobody |
| Ownership.StrangersChangeNothing | src/harness_kit/agent/loop.py:383-392 | a peek, an ending or a rollover asked for by anyone but the owner leaves every session, its mark and what is embedded as they were, but for evicting an expired one |
| Ownership.StrangersEndNothing | src/harness_kit/agent/loop.py:365-392 | nor does it begin an ending among the interleaved ones |
| Sessions.InMemorySessionStore.Save | src/harness_kit/stores/memory_session.py:43-46 | stamps, unmarks and stores |
| Sessions.InMemorySessionStore.AppendTurn | src/harness_kit/stores/memory_session.py:48-54 | appends, stamps and unmarks, or reports the missing session |
| Sessions.InMemorySessionStore.DueForFinalize | src/harness_kit/stores/memory_session.py:56-62 | scans the table: a pair is in the result if and only if it is a stored, unmarked session idle long enough with that owner |
| Sessions.InMemorySessionStore.MarkFinalized | src/harness_kit/stores/memory_session.py:64-67 | sets the mark and nothing else |
| Sessions.WritesLeave | src/harness_kit/stores/memory_session.py:43-67 | a save stores the whole session and an append one more turn, both as of now and unmarked; a mark sets only itself; none of them touches another session |
| Sessions.InMemorySessionStore.List | src/harness_kit/stores/memory_session.py:69-91 | scans and sorts: exactly the user's sessions that are not expired, each once, newest first |
| Sessions.DueExactly | src/harness_kit/stores/memory_session.py:56-62 | a pair is in the queue if and only if it is a stored, unmarked session idle long enough with that owner |
| Sessions.ListingExactly | src/harness_kit/stores/memory_session.py:69-91 | the listing holds exactly the user's unexpired sessions, each once, newest first, each described by its owner, times, mark, model, number of turns and the first 200 characters of its summary |
| RedisSessions.RoundTrip | src/harness_kit/stores/redis_session.py:56-101 | decoding an encoded session gives it back |
| RedisSessions.RedisSessionStore.Load | src/harness_kit/stores/redis_session.py:119-128 | absent when expired, refused to others, or the decoded session |
| RedisSessions.RedisSessionStore.Save | src/harness_kit/stores/redis_session.py:130-140 | document, expiry and both index entries in one transaction |
| RedisSessions.RedisSessionStore.AppendTurn | src/harness_kit/stores/redis_session.py:142-157 | the same for one more turn, or the missing-session error |
| RedisSessions.RedisSessionStore.DueForFinalize | src/harness_kit/stores/redis_session.py:159-185 | the index scan with its clean-up of stale entries |
| RedisSessions.RedisSessionStore.MarkFinalized | src/harness_kit/stores/redis_session.py:187-197 | rewrites the document with a renewed expiry and leaves the pending index |
| RedisSessions.RedisSessionStore.List | src/harness_kit/stores/redis_session.py:199-229 | the reverse scan of the user's index |
| RedisAgreement.IndexesAgree | src/harness_kit/stores/redis_session.py:130-229 | after every run of requests, every live session is in its owner's index at its last activity, and in the pending index there if and only if it is unfinalized |
| RedisAgreement.DueIsExact | src/harness_kit/stores/redis_session.py:159-185 | the queue is exactly the live, unfinalized sessions idle long enough |
| RedisAgreement.SweepCleans | src/harness_kit/stores/redis_session.py:159-179 | a sweep takes the due entries of sessions that are gone out of the pending index, and changes nothing else |
| RedisAgreement.ListIsExact | src/harness_kit/stores/redis_session.py:199-229 | the listing is exactly the caller's live sessions so described, each once, newest first, despite stale entries |
| RedisExpiry.AnswerAlikeIff | src/harness_kit/stores/redis_session.py:119-229 | in every state in which memory holds what is live in Redis: a load or a listing is answered alike if and only if the sessions concerned are alive in both or in neither, an append if what memory holds is live in Redis, a sweep if all that is due is; saves and marks always are |
| RedisExpiry.StoresAgreeIff | src/harness_kit/stores/memory_session.py:30-91 | over every run, whatever expires, all answers are alike if and only if every request finds what it needs |
| RedisExpiry.StoresAgree | src/harness_kit/stores/redis_session.py:119-229 | so while nothing expires, both stores answer every request of every run alike, queues as sets and listings up to equal times |
| RedisExpiry.SavedAnswersIff | src/harness_kit/stores/memory_session.py:48-62 | a session saved once: appends are answered alike until its life ends, sweeps until then or while it is not due, loads and listings but for the end itself |
| RedisExpiry.MarkRenewsOnlyRedis | src/harness_kit/stores/redis_session.py:187-197 | after a finalization the stores agree on a later load if and only if it does not fall between the two ends of life |
| RedisOverlaps.AppendsConservedIff | src/harness_kit/stores/redis_session.py:142-157 | however appends to any sessions overlap and whatever expires, a session holds its earlier turns and every turn written to it, in order, if and only if no write came between another append's read and its write |
| RedisOverlaps.OverlappedMarkKeepsIff | src/harness_kit/stores/redis_session.py:187-197 | a mark that overlaps appends puts back the buffer it read, finalized and out of the pending index; nothing is lost if and only if there was no append in between |
| Budgeter.ContextBudgeter.Allocate | src/harness_kit/agent/budgeter.py:69-128 | the loops compute the allocation for the input limit less the reserve and the margin, or overflow on tier 0 |
| Budgeter.AllocationWithinBudget | src/harness_kit/agent/budgeter.py:69-128 | it overflows exactly when the system text, the message and the tools alone do; otherwise the parts account for the tokens used, within budget |
| Budgeter.BlocksKeptIff | src/harness_kit/agent/budgeter.py:84-98 | the factual block, and then the rolling summary, is kept whole if and only if it fits after what comes before it, and dropped otherwise |
| Budgeter.KeepsLongestBuffer | src/harness_kit/agent/budgeter.py:100-109 | the buffer part is the longest end that fits in what is left |
| Budgeter.KeepsBestHits | src/harness_kit/agent/budgeter.py:111-119 | the episodic part is the longest best-first beginning that fits in what is left |
| ContextBuilding.ContextBuilder.Build | src/harness_kit/agent/context.py:94-123 | budgets and assembles the messages |
| ContextBuilding.ContextBuilder.Compose | src/harness_kit/agent/context.py:143-157 | identity first, then the parts that are not empty |
| ContextBuilding.SystemShows | src/harness_kit/agent/context.py:113-157 | the system message is exactly the identity and then, each after a blank line where there is any: dynamic text, skills, facts, kept episodes, and under its header the kept summary; the last message is the user's |
| ContextBuilding.BlocksShow | src/harness_kit/agent/context.py:160-171 | each fact and each kept episode stands on a line of its own under its header |
| ContextBuilding.TurnsAreSent | src/harness_kit/agent/context.py:174-181 | between them stand the kept turns in order, each under its own role with its own text, calls and call id |
| ContextBuilding.AssembledChars | src/harness_kit/agent/context.py:94-123 | the characters assembled, counted exactly |
| ContextBuilding.CharsWithinTokens | src/harness_kit/agent/context.py:94-181 | with the factual block kept, the characters lie between four times the tokens and that plus three per piece, plus headers and separators |
| ContextBuilding.SentContextFitsIff | src/harness_kit/agent/context.py:94-123 | for every input, the tokens of what is sent stay within the budget if and only if those of tier 0 and the factual block alone do, which is when the block sent is the one budgeted |
| ContextBuilding.DroppedFactualOvershoots | src/harness_kit/agent/context.py:114-120 | for every input whose block was dropped, the assembled characters are at least four for each token of the budget and four more, plus headers and separators |
| ContextBuilding.DroppedFactualOverflows | src/harness_kit/agent/context.py:114-120 | for every budget a dropped factual block can take the context past it |
| LruCache.BoundedLRUDict.Lookup | src/harness_kit/util.py:28-33 | returns the value and makes the key the most recent |
| LruCache.BoundedLRUDict.Assign | src/harness_kit/util.py:35-41 | stores as most recent and evicts the oldest when over capacity |
| LruCache.BoundedLRUDict.Contains | src/harness_kit/util.py:48-49 | membership, without touching the order |
| LruCache.LruStackProperty | src/harness_kit/util.py:24-46 | after every trace of get-then-set-on-miss the cache holds exactly the most recent keys of the unbounded move-to-front list, for every capacity |
| LruCache.CapacityMonotone | src/harness_kit/util.py:35-41 | a smaller cache holds the most recent part of a larger one |
| LruCache.SurvivesUntil | src/harness_kit/util.py:35-41 | a key is held if and only if fewer distinct other keys than the capacity were used since |
| LruCache.RecentKeysHeld | src/harness_kit/util.py:28-41 | every key used in a stretch that uses no more keys than fit is held at its end |
| LruCache.AccessActsOnKeys | src/harness_kit/tools/ratelimit.py:83-86 | the limiter's lookup, and its store on a miss, act on the keys as one access |
| RateLimiter.Bucket.TryConsume | src/harness_kit/tools/ratelimit.py:50-62 | refills up to the capacity, then takes the tokens if they are there; RejectedIff says which calls find them |
| RateLimiter.ToolRateLimiter.TryAcquire | src/harness_kit/tools/ratelimit.py:73-87 | one call on the states of all buckets held, through shared bucket objects |
| RateLimitBounds.ConsumeAccounting | src/harness_kit/tools/ratelimit.py:50-62 | one consumption keeps 0 <= tokens <= capacity and spends no more than was earned |
| RateLimitBounds.WindowBound | src/harness_kit/tools/ratelimit.py:44-87 | with a monotone clock, in a window using no more pairs than buckets, accepted calls of one pair number at most cap + (t - s) * cap / 60 |
| RateLimitBursts.RejectedIff | src/harness_kit/tools/ratelimit.py:44-87 | with a monotone clock, while a bucket made with allowance cap is held: a call of its pair is rejected if and only if for some earlier call of the pair since then the calls accepted from that one on exceed cap - 1 + elapsed * cap / 60 |
| RateLimitBursts.WholeBurstAccepted | src/harness_kit/tools/ratelimit.py:44-87 | so the first cap calls of a pair on a new bucket are all accepted, at whatever times they come, while the bucket is held |
| RateLimitBursts.HeldWhileItFits | src/harness_kit/util.py:28-41 | and it is held while no more pairs than the cache holds use the limiter since its first call |
| RateLimitBounds.NeverRejected | src/harness_kit/tools/ratelimit.py:50-87 | a pair called no more often than every 60 / cap seconds is never rejected, whatever is evicted |
| RateLimitBounds.EvictionBreaksBound | src/harness_kit/tools/ratelimit.py:82-87 | with one pair more than the cache holds, the calls accepted at one instant are unbounded |
| ToolExecution.Truncate | src/harness_kit/tools/registry.py:152-153 | short texts are shown whole, others as their first 500 characters and a mark, 513 characters in all |
| ToolRegistries.ToolRegistry.RunCall | src/harness_kit/tools/registry.py:91-131 | the decision, the limiter's new state, the observation and the tag of one call |
| ToolOutcomes.CallEnds | src/harness_kit/tools/registry.py:91-149 | a call is turned away by the first of the three checks that fails; otherwise its handler is called once with the user, the arguments and the tool's own time limit, and the result is ok if and only if it returned, then with all it returned; the display is that text or its beginning |
| ToolOutcomes.FailuresDiffer | src/harness_kit/tools/registry.py:94-131 | two failures of one tool told in the same words have the same reason |
| ToolRegistries.RunsOnlyWhenAllowed | src/harness_kit/tools/registry.py:94-119 | after any history of permissions a handler runs only for a registered tool last granted, or never mentioned and in the default; calls turned away earlier leave the limiter alone |
| ToolRegistries.LimiterSeesCharged | src/harness_kit/tools/registry.py:105-119 | over every history the limiter's state is that of the permitted, known, limited uses alone |
| ToolRegistries.RunsIffAccepted | src/harness_kit/tools/registry.py:105-122 | a limited tool's handler runs exactly when its use is charged and accepted |
| ToolRegistries.HandlerRunsAreBounded | src/harness_kit/tools/registry.py:105-122 | a limited tool's handler runs for one user at most cap + (t - s) * cap / 60 times in a window, whatever else is called |
| VectorStores.InMemoryVectorStore.Add | src/harness_kit/stores/memory_vectors.py:21-23 | upserts the points in turn |
| VectorStores.InMemoryVectorStore.Delete | src/harness_kit/stores/memory_vectors.py:57-61 | deletes the named points that are the user's |
| VectorStores.InMemoryVectorStore.ListPoints | src/harness_kit/stores/memory_vectors.py:63-81 | one page and the next cursor |
| VectorStores.InMemoryVectorStore.Search | src/harness_kit/stores/memory_vectors.py:25-55 | the k best of the user's scored points |
| DecayedRetrieval.CandidatesExactly | src/harness_kit/stores/memory_vectors.py:32-52 | a search is among the user's own points, each once with its own score, and exactly those that score at least the minimum |
| VectorStores.LoadAllUserPoints | src/harness_kit/jobs/_base.py:9-24 | following the cursors ends and gives all the user's points of the kind, for every page size |
| VectorStores.TraversalIsExact | src/harness_kit/jobs/_base.py:15-24 | exactly the user's points of that kind, each once, by time, equal times in the store's order |
| VectorStores.AddAllGet | src/harness_kit/stores/memory_vectors.py:21-23 | after the upserts an id holds the last point given for it, or what it held |
| VectorStores.DeleteAllLeaves | src/harness_kit/stores/memory_vectors.py:57-61 | a deletion leaves exactly the points not named or not the user's, in their order |
| VectorStores.RemovedCount | src/harness_kit/stores/memory_vectors.py:57-61 | naming n ids deletes at most n points, and n if and only if all are the user's and none is named twice |
| Retry.StoreWrite | src/harness_kit/retry.py:89-131 | the attempt loop, with its typed result |
| Retry.PartThenWhole | src/harness_kit/stores/memory_vectors.py:21-23 | a write after any part of itself is the write alone |
| Retry.RetryIsTransparent | src/harness_kit/retry.py:74-109 | for any attempts, failing ones having applied any part, a write that succeeds leaves the store of one application |
| Retry.AttemptsAccount | src/harness_kit/retry.py:90-131 | at most max_retries + 1 attempts, none after a terminal error, none given up at a transient one before the last; success exactly when the last one succeeds |
| UnionFind.Find | src/harness_kit/jobs/dedup.py:110-114 | path halving ends, returns the root and changes no element's root |
| UnionFind.Union | src/harness_kit/jobs/dedup.py:116-119 | joins exactly the two classes |
| UnionFind.Halving | src/harness_kit/jobs/dedup.py:111-113 | one halving keeps the forest and every root |
| UnionFind.UnionAll | src/harness_kit/jobs/dedup.py:108-122 | afterwards two indices share a root if and only if a path of edges connects them |
| UnionFind.RootsAreComponents | src/harness_kit/jobs/dedup.py:121-122 | roots in step with the edges are exactly their connected components |
| UnionFind.BuildClusters | src/harness_kit/jobs/dedup.py:124-126 | clusters by root, though finding roots rewrites the parents |
| UnionFind.GroupIsComponent | src/harness_kit/jobs/dedup.py:124-128 | every merge group is the whole component of each of its members |
| UnionFind.ComponentIsGroup | src/harness_kit/jobs/dedup.py:124-128 | any two connected indices are in a merge group together |
| UnionFind.GroupsDisjoint | src/harness_kit/jobs/dedup.py:124-128 | no index is in two groups |
| MergeIds.KeyIgnoresOrder | src/harness_kit/jobs/dedup.py:233-236 | the key depends only on which conversations are merged |
| MergeIds.KeyNamesConversations | src/harness_kit/jobs/dedup.py:233-236 | for ids without colons and earlier merge ids, keys are equal if and only if the conversations are |
| MergeIds.ColonsCollide | src/harness_kit/jobs/dedup.py:235-235 | ids with colons can share a key |
| Deduplication.SimilarPairs | src/harness_kit/jobs/dedup.py:103-105 | the edges, row by row |
| Deduplication.EdgesAre | src/harness_kit/jobs/dedup.py:103-105 | an edge is a pair i < j of similar points |
| Deduplication.FindGroups | src/harness_kit/jobs/dedup.py:107-128 | the groups are exactly the components of at least two points, none twice |
| Deduplication.EpisodicDeduplicator.LoadPoints | src/harness_kit/jobs/dedup.py:75-84 | the points considered: all the user's conversation points, or of too many those that NewestTakenUp describes |
| MergedContents.NewestTakenUp | src/harness_kit/jobs/dedup.py:75-84 | a run takes up all the user's conversation points, or as many as it may, and then none left out is newer than one taken up |
| Deduplication.EpisodicDeduplicator.IndexMoments | src/harness_kit/jobs/dedup.py:90-94 | each conversation's moments, nothing for an empty id |
| Deduplication.EpisodicDeduplicator.ReplaceSources | src/harness_kit/jobs/dedup.py:173-215 | adds each merged point and deletes its sources and siblings, with retries, up to the first write that raises, and counts |
| Deduplication.EpisodicDeduplicator.RunForUser | src/harness_kit/jobs/dedup.py:72-215 | the groups are the components, and store and counters are those of the successful merges, up to the first write that raises |
| DeduplicationOutcome.MergesExactly | src/harness_kit/jobs/dedup.py:173-213 | with fresh ids the store ends as the old one without what was deleted, in order, followed by the merged points |
| DeduplicationOutcome.ReplacedCountIffFresh | src/harness_kit/jobs/dedup.py:185-213 | a merge replaces n points by one if and only if its id was not in the store |
| DeduplicationOutcome.RunCount | src/harness_kit/jobs/dedup.py:173-213 | a whole run takes away the points it deletes and adds one a merge, less the merged ids that were already stored |
| DeduplicationOutcome.RunReplacesIffFresh | src/harness_kit/jobs/dedup.py:173-213 | so it replaces what it deletes by one point a merge if and only if none of its merged ids was stored |
| DeduplicationOutcome.OwnerUnique | src/harness_kit/jobs/dedup.py:90-94 | with distinct conversation ids every id belongs to at most one conversation point, as itself or as its moment |
| DeduplicationRuns.RunIsClean | src/harness_kit/jobs/dedup.py:75-128 | what a run loads and groups meets the conditions of the results below |
| DeduplicationRuns.RunIsOutcome | src/harness_kit/jobs/dedup.py:150-174 | whatever the order of the batch's answers, the merges are those of the successful groups |
| DeduplicationRuns.OutcomeIsExact | src/harness_kit/jobs/dedup.py:173-215 | the exact final store, and points_deleted equals the points removed |
| DeduplicationRuns.MergedIsThere | src/harness_kit/jobs/dedup.py:185-200 | each successful group's merged point is in the store |
| DeduplicationRuns.OldIsReplacedOrKept | src/harness_kit/jobs/dedup.py:202-211 | every other id is empty if a successful group owned it, and unchanged otherwise |
| DeduplicationRuns.MemberFate | src/harness_kit/jobs/dedup.py:150-176 | a group's points and moments go if and only if the group was merged and embedded |
| DeduplicationRuns.SingletonStays | src/harness_kit/jobs/dedup.py:128-128 | a point in no group stays with its moments |
| DeduplicationRuns.OtherUsersStay | src/harness_kit/jobs/dedup.py:207-211 | no point of another user changes |
| DeduplicationRuns.MergedPointOfGroup | src/harness_kit/jobs/dedup.py:177-195 | a merged point is the user's, lists its group's conversations and carries the oldest of their times; its text is the answer to the group's batch item and its vector that text's embedding |
| MergedContents.AllTextsAreMerged | src/harness_kit/jobs/dedup.py:132-146 | a group's batch item holds the whole text of each of its points, in order, with rules between them |
| MergedContents.MomentsGoAlong | src/harness_kit/jobs/dedup.py:90-94 | when a group was merged, each of its conversations' points and every moment of that conversation are gone |
| DeduplicationRuns.BatchIdsDiffer | src/harness_kit/jobs/dedup.py:136-148 | groups of distinct, well-named conversations never share a batch id |
| DeduplicationRuns.MergedIdReusedIff | src/harness_kit/jobs/dedup.py:136-140 | two groups, of one run or of two, use the same merged id if and only if they merge the same well-named conversations |
| DeduplicationFailures.RaisedRunStops | src/harness_kit/jobs/dedup.py:196-211 | a run whose writes get through is the one above; one that raises has completed the merges before, cut one short and begun no other |
| DeduplicationFailures.NoSourceLost | src/harness_kit/jobs/dedup.py:196-211 | wherever a run raises and however its attempts go, every id it does not merge to holds what it held, or a merged point stands for it, unless the run deletes that one again |
| DeduplicationFailures.FateOfPoint | src/harness_kit/jobs/dedup.py:173-211 | a stored point, in a run that may raise anywhere and reuse merged ids: as it was, or its group's merged point is stored, or its own id is reused for a merge, or its group's merged point is deleted again |
| DeduplicationFailures.NoConversationLost | src/harness_kit/jobs/dedup.py:173-211 | with fresh merged ids and distinct conversation ids, only the first two: every point is as it was, or its group's merged point is stored |
| DeduplicationFailures.MergedLastsIff | src/harness_kit/jobs/dedup.py:185-211 | a merged point outlasts its run if and only if neither its own merge nor a later one deletes its id |
| EpisodicMemories.PointIdsInjective | src/harness_kit/memory/episodic.py:109-174 | point ids decide kind, conversation and index, even when conversation ids contain colons |
| EpisodicMemories.EpisodicMemory.WriteConversation | src/harness_kit/memory/episodic.py:122-190 | every path: empty text, failing embedder, failing write, no moments, moments |
| EpisodicMemories.WriteTells | src/harness_kit/memory/episodic.py:137-190 | after a write that returned, the conversation's point is the user's and holds the whole transcript, its embedding and its time, and the point of each flagged index likewise its text, up to the maximum |
| EpisodicMemories.WriteLeaves | src/harness_kit/memory/episodic.py:137-190 | however a write ends, raising anywhere included, every id holds what it held, or the new conversation point, or a new moment, and a new moment only beside the new conversation point |
| EpisodicMemories.EpisodicMemory.ForgetConversation | src/harness_kit/memory/episodic.py:102-120 | one deletion of the conversation's ids, and the count of ids named |
| EpisodicMemories.EpisodicMemory.Retrieve | src/harness_kit/memory/episodic.py:70-85 | the hits, of twice as many fetched when decay is on |
| EpisodicMemories.EpisodicMemory.ApplyDecay | src/harness_kit/memory/episodic.py:87-100 | fades each hit that has a time, ranks anew and cuts |
| EpisodicMemories.RunKeepsScheme | src/harness_kit/memory/episodic.py:102-211 | over every run of finalizations and forgets, raising ones included, one point per conversation and moments below the maximum only, besides merged points |
| EpisodicMemories.WriteUpserts | src/harness_kit/memory/episodic.py:137-190 | finalizing again replaces the point and the first moments and changes nothing else |
| EpisodicMemories.ForgetIsExact | src/harness_kit/memory/episodic.py:102-120 | also in a store with merged points, a forget leaves none of the user's points of that conversation and touches no other point |
| EpisodicMemories.ForgetCountIsExactIff | src/harness_kit/memory/episodic.py:105-120 | the returned count is the number deleted if and only if every id was there |
| EpisodicMemories.KeptMomentsAreForgottenIff | src/harness_kit/memory/episodic.py:109-208 | the ids a forget names include the id of every moment a finalization can keep if and only if the maximum is not negative |
| EpisodicMemories.NegativeMaximumLeavesMoments | src/harness_kit/memory/episodic.py:102-208 | with a negative maximum every moment that a finalization kept is still stored after the conversation was forgotten |
| EpisodicMemories.ForgetClearsIff | src/harness_kit/memory/episodic.py:102-120 | after a forget nothing the user has mentions the conversation if and only if no stored merge listed it |
| MemoryRuns.MixedRunKeepsScheme | src/harness_kit/jobs/dedup.py:185-211 | the same over every run that mixes finalizations, forgets and deduplications, raising ones included |
| MemoryRuns.ForgetAfterRunClearsIff | src/harness_kit/memory/episodic.py:102-120 | so the condition of ForgetClearsIff is exact after every such run |
| Lineage.ForgetErasesIff | src/harness_kit/memory/episodic.py:102-120 | after every such run a forget leaves nothing of the user's that stems from the conversation, through however many merges, if and only if no stored merge stems from it; and then none lists it |
| Lineage.SecondMergeHides | src/harness_kit/jobs/dedup.py:136-194 | a merge with a merged member stems from conversations that it does not list |
| Lineage.RunsAreSound | src/harness_kit/jobs/dedup.py:136-194 | over every such run a stored merge has the id of what it lists, and stems from each conversation it lists, listed merges aside |
| Lineage.OverwrittenListsSame | src/harness_kit/jobs/dedup.py:185-200 | a point that a reused merged id overwrites lists the same conversations as the new one |
| DecayedRetrieval.SearchIsTopK | src/harness_kit/stores/memory_vectors.py:25-55 | the search result is a top-k of the user's points scoring at least the minimum |
| DecayedRetrieval.PlainRetrievalIsTopK | src/harness_kit/memory/episodic.py:78-85 | so a retrieval without decay returns the k best of them |
| DecayedRetrieval.RetrievalCertificate | src/harness_kit/memory/episodic.py:70-100 | the faded hits are a true top-k of all the user's points above the minimum when fewer than 2k were fetched or the k-th faded score reaches the smallest fetched |
| DecayedRetrieval.RetrievalIsTight | src/harness_kit/memory/episodic.py:76-100 | where that fails, one more point leaves the same hits and makes them wrong |
| DecayedRetrieval.RetrievalIsTimeless | src/harness_kit/memory/episodic.py:87-100 | for an exponential decay, while nothing is written a later retrieval finds the same points in the same order, every score multiplied by the factor of the days since |
| DecayedRetrieval.OlderRanksLower | src/harness_kit/memory/episodic.py:91-98 | of two hits with one positive score the older scores lower if and only if it is dated in the past |
| Permissions.InMemoryPermissionStore.AllowedTools | src/harness_kit/stores/memory_permissions.py:26-30 | default and grants without revokes |
| Permissions.InMemoryPermissionStore.Grant | src/harness_kit/stores/memory_permissions.py:32-37 | the new grants and revokes |
| Permissions.InMemoryPermissionStore.Revoke | src/harness_kit/stores/memory_permissions.py:39-44 | the new revokes and grants |
| Permissions.SqlitePermissionStore.AllowedTools | src/harness_kit/stores/sqlite_permissions.py:118-127 | the same from rows, after seeding the default row |
| Permissions.SqlitePermissionStore.Grant | src/harness_kit/stores/sqlite_permissions.py:129-139 | reads, changes and upserts the user's row |
| Permissions.SqlitePermissionStore.Revoke | src/harness_kit/stores/sqlite_permissions.py:141-151 | reads, changes and upserts the user's row |
| Permissions.SqlitePermissionStore.ExtendDefaultAllowed | src/harness_kit/stores/sqlite_permissions.py:153-162 | grows the default row |
| Permissions.AllowedIff | src/harness_kit/stores/memory_permissions.py:26-50 | over every history a tool is allowed if and only if the last word on it was a grant, or nothing was said and it is in the current default |
| Permissions.GrantsAndRevokesDisjoint | src/harness_kit/stores/memory_permissions.py:32-44 | no tool is both granted and revoked |
| Permissions.RowsRefineSets | src/harness_kit/stores/sqlite_permissions.py:79-162 | from the same initial default the rows allow every user but the sentinel what the sets allow |
| Permissions.AgreementKeptIff | src/harness_kit/stores/sqlite_permissions.py:129-162 | an operation keeps the agreement if and only if it does not change the default row |
| Permissions.SentinelGrantLeaks | src/harness_kit/stores/sqlite_permissions.py:31-31 | a grant to the sentinel user reaches everyone in the row-based store |

## Left out

- Language model, embedder and batch calls: their results are parameters; nothing is said about content or quality.
- Cosine arithmetic in float32 and `exp`: similarity and scores are abstract functions, a decay factor is in [0, 1].
- Rounding of floats: clocks, tokens and scores are reals.
- Redis, SQL and Qdrant clients: keys and sorted sets, rows, and nothing of Qdrant; each store method is one atomic step with one clock reading.
- RedisSessions.RedisSessionStore.AppendTurn: read and write are one step; RedisOverlaps says what overlapping ones keep.
- JSON text: documents are records whose optional fields may be missing; parsing is not modelled.
- UUID5: an arbitrary function of the merge key, assumed injective only in BatchIdsDiffer, MergedIdReusedIff and OverwrittenListsSame.
- Aliasing of in-memory sessions: the source hands out the stored object itself, the model a copy of its value.
- Lifecycle.ConversationKeeper.EndConversation: the method is the uninterrupted ending; what comes between its steps is in Endings.
- Endings.MarkMeansEmbedded: over the in-memory store; an ending writes its text at once or raises, moments are in EpisodicMemories.
- EpisodicMemories.ForgetClearsIff: goes by the conversations a merged point lists; ForgetErasesIff goes by those it stems from.
- Conversations.TurnsConserved: rollovers do not overlap turns; RolloversConserveIff is about those that do.
- RolloverOverlaps.RolloversConserveIff: on one session that stays loadable.
- Custom token estimators: the estimator is a quarter of the characters, rounded down.
- TurnLoop.RunTurn: the context is given; cancellation of the whole turn, model overrides, streaming of text chunks, metrics and background extraction are not modelled.
- DeduplicationRuns.OutcomeIsExact: for fresh merge ids and distinct conversation ids; RunCount, MergedLastsIff and RemovedCount say what happens otherwise.
- Backoff delays and jitter of retries: only the attempts and their effects are modelled.
- Working memory's load for a turn, which saves an empty session when there is none: it is a load and a save among the requests and events.
- Query augmentation and rewriting before a retrieval: the query enters as its score function.
- ToolRegistries.ToolRegistry.RunCall: how names and numbers are rendered in messages is a parameter, and a handler's time is part of its outcome.
- Serving, wire formats, telemetry, metrics, command line, configuration parsing, MCP connections, skills, profile facts and re-summarization: plumbing or easy members.
