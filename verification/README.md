# Eika, modelled and verified

Eika is a coding agent harness: a server that drives a model through tool calls
in a workspace, keeps every conversation as a tree of entries, and shows it to
clients as it happens. This project models the parts of it whose correctness is
hardest to see from any one function, and proves what they are for.

- **The agent turn** (`Agent.dfy`, `Compacting.dfy`, `Summaries.dfy`, `Calls.dfy`,
  `Environment.dfy`, `Rounds.dfy`, `Planning.dfy`, `Estimate.dfy`,
  `Deliveries.dfy`, `Queues.dfy`, `Conversations.dfy`). The in-memory conversation, the two queues,
  the undelivered messages and the durable log change together across model
  calls, tool calls, steering, automatic compaction, cancellation and failed
  writes. Whatever happens, the conversation refines the fold of the log, each
  recorded call's reply and results stand in the log behind exactly what it sent,
  and no accepted message is lost or duplicated. From a conversation whose calls
  are all answered, every request is well formed.
- **The session tree** (`Session.dfy`, `Pairing.dfy`, `Resume.dfy`). A compaction
  entry rewrites everything before it; pairing of calls and results, and which
  entries a conversation can be resumed at, survive that.
- **The run registry** (`Registry.dfy`, `RunMachine.dfy`), as the critical sections
  it is made of and as a state machine over all their interleavings.
- **Images** (`Jpeg.dfy`, `Orient.dfy`): JPEG marker structure (ITU-T T.81, section
  B.1.1), pixel reorientation, and the size an image is scaled to.
- **Streams, indexes and folds**: server-sent events (`Sse.dfy`; HTML Standard,
  sections 9.2.5 and 9.2.6), header values (`Headers.dfy`; section 4 of RFC 4648),
  the cache (`Lru.dfy`), the event bus (`Bus.dfy`), the quota tracker
  (`Tracker.dfy`) and layered configuration (`Config.dfy`).

`dafny verify dfyconfig.toml` checks everything.

## How it is modelled

What the source changes step by step is imperative here: objects are classes with
the same fields, loops are loops with invariants, and each method is proved
against a function or predicate about which the properties are then proved.

What the agent cannot foresee is nondeterministic: replies and their failures,
the outcome of every store write and tool call, cancellation, and what clients
put in the queues between two steps of the loop. A write happens whole or not at
all. Message sizes, the note that stands for images, the transcript's text and
the cleaning of a reply are arbitrary functions. `World.Valid` says of every
request ever sent that it is well formed and of every call ever recorded that it
was sent and answered and that the log down to its head rebuilds it; `Stream` and
`Record` demand that of each new one, so it holds of any call the agent can make.
`World.sound` says whether the conversation had every call answered where the
world began; only the pairing of requests depends on it. `World.refused`,
`unwritten` and `broke` count the writes the store refused and the tools that
broke, so that what a run reports has to have happened: `Agent.Counted` ties the
answers that were lost to refused writes, and `Agent.Stopped` says of an error's
cause what makes it true. `Agent.Accounted` and
`Agent.Balanced` say where each message is that waited when the run began or was
accepted since.

The registry appears twice. `Registry.Runs` has the maps and one method for each
critical section, each proved equal to a function of the maps before it.
`RunMachine` takes those functions as steps of any number of threads: runs being
built and driven, clients enqueueing and aborting, background writes ending, and
shutdowns. The tracker's two locks and the bus's subscriptions are modelled as
interleaved steps in the same way.

Where a stronger claim is false of the code, the project says exactly when:

- Putting messages back on the steering queue inverts their order if and only if
  the turn's own messages came from that queue and it was steered as well
  (`RestoringKeepsOrderIff`, `RestoringCanInvert`).
- A message of a session is lost if and only if a compaction of it finishes with
  messages of its own while an earlier run's wait, or accepts one after reading
  that queue; no other step of any thread loses anything (`StepLoses`,
  `LosesIff`), and both come about (`CompactionOverwrites`, `CompactionForgets`).
- The raw path and the folded conversation agree on open calls all along if and
  only if each compaction, where it was recorded, kept messages that leave the
  same calls open without what it cut (`RawAgreesWithFolded`,
  `CompactionAgreesIff`). Where the conversation is paired so far that is so of
  every cut the planner makes, with calls open or not (`PlannedCutHarmless`).
  After a lost answer it need not be: nothing stops a compaction of such a
  conversation (`CompactingMidCallHidesIt`).
- The first request of a run is well paired if and only if every call of the
  conversation it was loaded with is answered (`FirstRequestPairedIff`). A run
  after a lost answer is begun all the same, and its first request is malformed
  (`LostAnswerMalformsNext`).
- The newest measurement in a conversation is said to be always of the context as
  it is now. It is if and only if the call that produced that reply told its usage
  (`MeasuresItsCallIff`); without, it is an older one of the same turn, which may
  have been compacted away since (`StaleAfterCompaction`).
- A summary request's input may equal the window exactly when its budget is
  nothing (`FullWindowTried`), which happens (`FullWindowHappens`); every other
  request leaves room.

## Model

| member | source | states |
|---|---|---|
| `Session.Messages` | internal/session/message.go:76-96 | the loop over entries returns the fold of the log: messages appended in order, notes skipped, a compaction replacing everything before it |
| `Session.CompactedIs` | internal/agent/compaction.go:83-95 | by what: one user message that carries its summary, then the newest messages it keeps, all or none when it says more or less, each as it was in every field but without its measurement |
| `Session.CompactionUnmeasures` | internal/agent/compaction.go:83-95 | so behind a compaction entry no message of the conversation is measured |
| `Session.FoldedOfAppend` | internal/session/message.go:76-96 | appending one entry to a log extends the rebuilt conversation by exactly that entry's step |
| `Session.WithArguments` | internal/session/message.go:38-55 | stores a message with every empty tool argument spelled as an empty object, and changes nothing else: same calls, same ids and names, same order, same other arguments |
| `Session.CompactedSpelled` | internal/agent/compaction.go:86-95 | compacting the live conversation and spelling it for the store commute, so the log replays the compaction the conversation made |
| `Session.SummaryTextRoundTrip` | internal/agent/compaction.go:105-109 | the summary read back out of the message that carries it is the summary, whatever text it contains |
| `Pairing.PairedIffWellPaired` | internal/agent/agent.go:309-351 | the one-pass fold over a conversation accepts exactly the conversations in which each call is answered once, contiguously and in order, and no result is an orphan |
| `Pairing.FoldStands` | internal/agent/agent.go:309-351 | where the fold holds, the calls it has open are the newest asking message's unanswered ones and everything before is answered |
| `Pairing.FoldFollows` | internal/agent/agent.go:309-351 | in a well-paired conversation the fold holds at every prefix, with exactly the unanswered calls of the newest asking message |
| `Pairing.CutPairs` | internal/agent/compaction.go:171-217 | cutting a paired conversation anywhere but at a tool result leaves two paired parts |
| `Pairing.CompactedPairs` | internal/agent/compaction.go:86-95 | a compaction whose first kept message is no tool result leaves a paired conversation |
| `Pairing.FirstNeverResult` | internal/agent/compaction.go:171-217 | in a paired conversation a message that begins it, or follows one that asked for nothing, is never a tool result |
| `Resume.IsPathResumable` | internal/session/resume.go:55-61 | decides by one fold whether a path leaves any tool call unanswered |
| `Resume.ResumableSet` | internal/session/resume.go:67-76 | for any forest of entries in write order, one pass with two maps gives each entry the verdict its own root-to-entry path has |
| `Resume.LocalIsGlobal` | internal/session/resume.go:67-76 | a table of pending calls that is right from each parent to its child is right along every path from a root |
| `Resume.PathTo` | internal/session/resume.go:67-76 | every entry written in that order has a path from a root |
| `Resume.OnePath` | internal/session/resume.go:67-76 | and only one |
| `Resume.PendingMonotone` | internal/session/resume.go:26-49 | fewer calls open before some messages means no more open after them, as multisets |
| `Resume.CompactionAgreesIff` | internal/session/resume.go:26-76 | a compaction keeps the raw path and the conversation it stands for in agreement on open calls exactly when what it keeps leaves the same calls open without what it cuts, which can be told before it is recorded |
| `Resume.RawAgreesWithFolded` | internal/session/resume.go:26-76 | for any path: raw path and folded conversation agree on the open calls at every entry exactly when each compaction on the path was harmless in that sense where it was recorded |
| `Resume.PlannedCutHarmless` | internal/agent/compaction.go:176-181 | what the loop relies on: where pairing holds so far, with calls open or not, a compaction that keeps from a message that is no result is harmless |
| `Resume.IdleCutHarmless` | internal/agent/compaction.go:86-95 | a compaction of a conversation with no open call is harmless and leaves none open, wherever it cuts |
| `Resume.OpenIsUnanswered` | internal/session/resume.go:26-49 | where pairing holds so far, its open calls are the ones the store counts as unanswered, in the same order |
| `Planning.PlanCompaction` | internal/agent/compaction.go:171-217 | returns the plan with the best cut, which is no tool result, and the turn it splits, if any; or none when that cut leaves nothing to summarize |
| `Planning.PlanUnique` | internal/agent/compaction.go:171-217 | that description admits exactly one answer |
| `Planning.CutPlaces` | internal/agent/compaction.go:176-181 | lists, in order, exactly the places a conversation can be cut |
| `Planning.CutKeeping` | internal/agent/compaction.go:185-205 | the walk back from the newest message ends at the oldest place after which less than `keep` follows, or at the newest place when more than that follows every one |
| `Planning.TurnBegin` | internal/agent/compaction.go:206-213 | the user message that began the turn a cut falls in, if the cut is not itself one |
| `Planning.PlanKeepsAboutKeep` | internal/agent/compaction.go:171-217 | the cut is a stored message that is no tool result, and the stored messages after it total less than `keep` or are all tool results |
| `Planning.SmallConversationRefused` | internal/agent/compaction.go:171-217 | a paired conversation smaller than `keep` is never compacted |
| `Planning.PlanShrinks` | internal/agent/compaction.go:281-296 | every accepted plan leaves strictly fewer messages that are not a summary, so compacting again and again ends |
| `Planning.PlanSplitsExactly` | internal/agent/compaction.go:159-217 | what a plan cuts is exactly its complete turns followed by the start of the split turn, split at no tool result |
| `Estimate.Scaled` | internal/agent/compaction.go:127-135 | the setting if positive, else the default; under a known window the largest such number of which four fit in it |
| `Estimate.ReserveTokens` | internal/agent/compaction.go:117-135 | the reserve: as set, else 16384, within a quarter of a known window |
| `Estimate.KeepRecentTokens` | internal/agent/compaction.go:117-135 | what is kept: as set, else 20000, within a quarter of a known window |
| `Estimate.WithMessages` | internal/agent/context.go:176-197 | the messages of a request, one for each of the conversation, and their sizes: who speaks, calls and call ids are kept, measurements never; reasoning exactly if it is to be preserved; images if the model reads any, and else a note of how many behind the text, which is otherwise the message's own |
| `Environment.World.SentConveys` | internal/agent/response.go:99-138 | every request ever sent conveys that of the messages it was sent for: the run's conversation; what a summary is to cover and its prompt, as messages or as one transcript |
| `Estimate.PreparedPairs` | internal/agent/context.go:273-288 | preparing a conversation for sending changes nothing about which call is answered |
| `Estimate.LastMeasured` | internal/agent/compaction.go:311-326 | finds the newest reply with a measured context, and none only if there is none |
| `Estimate.EstimateContext` | internal/agent/compaction.go:332-346 | the newest measurement plus the size of everything after it, or the overhead plus the size of everything |
| `Estimate.EstimatedUnmeasured` | internal/agent/compaction.go:332-346 | when no reply is measured it is the overhead and every size |
| `Estimate.EstimatedFrom` | internal/agent/compaction.go:311-346 | else what the newest measured, its total or the sum of its parts, and every size after it |
| `Estimate.EstimateAfterCompaction` | internal/agent/compaction.go:281-296 | right after a compaction it is the overhead and the sizes alone |
| `Estimate.CompactsWhenReserveTaken` | internal/agent/compaction.go:300-304 | a compaction is due when it is automatic, the window is known and less than the reserve is free of it |
| `Estimate.Fit` | internal/agent/compaction.go:352-363 | fails exactly when the estimate reaches a known window; otherwise lowers the maximum output just enough for both to fit |
| `Environment.World.Append` | internal/session/message.go:22-55 | one durable write of a message in its stored spelling: whole, or not at all, and then it is counted as refused |
| `Environment.World.Stream` | internal/agent/response.go:199-283 | whatever is sent, for a run or for a summary, in any state the agent reaches: its messages are well paired if the conversation was when the world began, its estimate is the estimate of what it carries, estimate and output fit the window, and a run's request is the fold of the log as it then stands followed by what it is sent with undelivered; what came of it is kept with it |
| `Environment.World.Record` | internal/agent/context.go:321-331 | a call can only be recorded as the one sent last, with the messages it carried, when it was answered and folding the log down to the recorded head rebuilds exactly those messages |
| `Environment.World.CallTool` | internal/agent/agent.go:354-377 | one tool call: a result under that call's id, kept in the order tools ran, or the harness's own failure |
| `Calls.Judged` | internal/agent/response.go:199-283 | what came back is a reply exactly if it finished with a stop reason; it then has that text, reasoning, reason and usage, and its calls unless it was cut off |
| `Calls.Stream` | internal/agent/response.go:199-283 | one request; the attempt is that verdict on what came back |
| `Calls.Retrying` | internal/agent/response.go:162-191 | sends the same request at least once and at most `MaxRetries` more times, each time after a retryable failure that was no overflow; it stops short of that only for a reply, another failure or cancellation |
| `Summaries.Efforts` | internal/agent/summary.go:228-231 | the run's effort first, then the fallback if there is another |
| `Summaries.Ask` | internal/agent/summary.go:222-295 | one form: a text returned was not cut off and is the cleaned reply to the request sent last; when every reply was cut short each effort was tried and answered, and the partial kept is at least as long as each of them and as the one before, and is itself such a reply |
| `Summaries.NoSummaryIs` | internal/agent/summary.go:240-262 | what ends a form without a summary, and that the other is tried exactly after an overflow and after a reply that only calls tools |
| `Summaries.HasRoomIs` | internal/agent/summary.go:232-276 | a form is tried when the window leaves its budget, or 2048 tokens, beside the estimate |
| `Summaries.Summary` | internal/agent/summary.go:222-295 | at most four rounds of attempts over two forms; a summary returned is the reply to a request for the whole range, and every request's output fits the budget and the window; there is none only after cancellation, when neither form had room, or when the last call brought no text and the other form was tried, had no room or was not called for |
| `Summaries.SentInRoom` | internal/agent/summary.go:240-262 | a request given the room left by its input stays within the window |
| `Conversations.Conversation.Truncate` | internal/agent/conversation.go:40-49 | keeps the first n messages, none for a negative n, all when there are fewer |
| `Conversations.Conversation.Append` | internal/agent/conversation.go:25-29 | adds one message at the end |
| `Conversations.Conversation.Replace` | internal/agent/conversation.go:53-57 | puts other messages in place of all |
| `Queues.Queue.Push` | internal/agent/queue.go:29-33 | adds one message at the back |
| `Queues.Queue.Unshift` | internal/agent/queue.go:37-44 | puts messages back in front in their own order |
| `Queues.Queue.Drain` | internal/agent/queue.go:47-53 | hands over everything and leaves nothing |
| `Queues.Queue.Take` | internal/agent/queue.go:56-68 | hands over up to n messages from the front, all for n not positive, and keeps the rest in order |
| `Queues.Queue.Pending` | internal/agent/queue.go:71-75 | returns what is queued and leaves it there |
| `Compacting.OpenIsPathPending` | internal/session/resume.go:26-61 | the calls open in the live conversation are the calls the stored path leaves pending |
| `Compacting.ReadyIsResumable` | internal/session/resume.go:55-61 | wherever the loop may call the model, the stored path is resumable |
| `Compacting.ResumableIsReady` | internal/session/resume.go:11-24 | conversely, of a stored log that agrees and is paired so far: the conversation it folds to can be run on exactly when its path is resumable |
| `AgentLoop.ResumableIsSettled` | internal/server/run_manager.go:215-290 | so what is loaded from an entry meets what a run asks of it exactly when the entry is resumable |
| `Compacting.Summarize` | internal/agent/summary.go:160-202 | no range is dropped unsummarised: for each non-empty part a request was made for exactly its messages, as they are or as transcript text, under its own prompt and with the room its own share of the reserve leaves, whose reply is in the summary, and an earlier summary was among them or is carried over verbatim; within eight rounds of attempts; there is none only if one of the two parts got none |
| `Compacting.AssembledSummary` | internal/agent/summary.go:196-201 | the history's summary, or that there is none, then the separator, then the split turn's |
| `Compacting.HistoryPrompt` | internal/agent/summary.go:166-174 | the prompt updates the earlier summary exactly if there is one, and names a focus exactly if one was given |
| `Compacting.FirstRequestPairedIff` | internal/agent/response.go:99-138 | the request built from a conversation and any user messages after it is well paired exactly when every call of the conversation is answered |
| `Compacting.LostAnswerMalformsNext` | internal/server/run_manager.go:215-290 | so on a path that is not resumable, as a lost terminal write leaves it, the next run's first request is malformed |
| `Compacting.CompactingMidCallHidesIt` | internal/session/resume.go:55-61 | a path, and a compaction of it that the planner admits, after which the path is not resumable although the folded conversation has no open call |
| `Compacting.FullWindowTried` | internal/agent/summary.go:240-262 | a summary form is tried although its input fills the window exactly when its budget is nothing and the input equals the window |
| `Compacting.FullWindowHappens` | internal/agent/summary.go:240-262 | there are options and a paired conversation for which such a request is sent, and it is well formed |
| `Compacting.CompactedReady` | internal/agent/compaction.go:281-296 | after a compaction at a message that is no result, the conversation again mirrors the log, with every call answered and raw path and conversation in agreement if that was so before |
| `Compacting.CompactAt` | internal/agent/compaction.go:252-297 | either one compaction entry is appended that keeps what the unique plan for the conversation keeps, whose summary accounts for all it cuts, and that says why it was made and what the context took before and takes after, and the conversation becomes its fold followed by what waits to be delivered, unchanged; or neither conversation nor store changes, because there was no plan, no summary of what it cuts, or the store refused the entry |
| `Compacting.AutoCompact` | internal/agent/response.go:143-156 | compacts with messages still undelivered and moves the mark along, so that what waits still waits; a failure changes neither conversation nor store and has one of those causes |
| `Compacting.RunRequestWellFormed` | internal/agent/response.go:99-138 | the request built for the conversation as it stands is well formed, and is the folded log followed by what waits, up to spelling |
| `Compacting.CallModel` | internal/agent/response.go:99-138 | ends after at most two compactions and two rounds of `MaxRetries`+1 attempts, every one of them with what waits behind the log as it then stood; over the threshold a compaction was tried; a reply returned is what came of the call sent last, which carried the conversation as it now stands; a failure has its cause: cancellation, a conversation that does not fit, a last call without a reply, or an overflow whose compaction failed; an overflow is never the end before a compaction was tried |
| `Compacting.SendRun` | internal/agent/response.go:116-118 | one request for the conversation as it stands, with its retries: every attempt carries it |
| `Compacting.SendOrRecover` | internal/agent/response.go:116-136 | the request and what is made of its outcome: a result, or, once, a compaction after which it is to be sent again |
| `Compacting.OverflowedIs` | internal/agent/response.go:120-136 | a request overflowed when the endpoint says so, or cut off a reply of nothing at all to one that left less than a hundredth of the window |
| `Deliveries.RestoringConserves` | internal/agent/agent.go:222-240 | putting back what a turn did not deliver loses and duplicates nothing, and keeps the follow-ups' order |
| `Deliveries.RestoringKeepsOrderIff` | internal/agent/agent.go:232-238 | the steering queue gets its messages back in the order they were taken unless the turn's own messages came from it and it was steered again as well, and then it does not |
| `Deliveries.RestoringCanInvert` | internal/agent/agent.go:232-238 | two messages for which the order is in fact inverted |
| `AgentLoop.Agent.Steer` | internal/agent/agent.go:126-134 | accepts a message and queues it, or refuses it and queues nothing |
| `AgentLoop.Agent.FollowUp` | internal/agent/agent.go:138-146 | the same for messages that wait for the turn to end |
| `AgentLoop.Agent.Clients` | internal/agent/agent.go:126-146 | whatever clients do between two steps of the loop only adds accepted messages at the back, and nothing once acceptance is closed |
| `AgentLoop.Agent.NextQueued` | internal/agent/agent.go:422-437 | takes all steering there is by then; only if there is none the first follow-up, or all of them in that mode; finding neither closes acceptance with both queues empty, in one step |
| `AgentLoop.Agent.StorePending` | internal/agent/agent.go:257-266 | appends the messages the model has seen in order, all of them unless the store refuses one, nothing else, and keeps account of exactly how many |
| `AgentLoop.Agent.RestoreFrom` | internal/agent/agent.go:222-240 | after any failure the conversation is what is stored, and every undelivered message is back on its queue before all that arrived since |
| `AgentLoop.Agent.AbandonToolCalls` | internal/agent/agent.go:331-351 | tries to answer every call that was not run, in order; as many calls stay open in the store as it refused of those writes, and if it refused none the conversation is paired |
| `AgentLoop.Agent.RunTool` | internal/agent/agent.go:309-325 | runs one call and stores its result, unless the run was cancelled, the tool broke or the store refused it |
| `AgentLoop.Agent.RunTools` | internal/agent/agent.go:309-325 | without an error the log grew by exactly the results the tools gave, one for each call in order; with one, which is cancellation, a broken tool or a refused result, by all of those but perhaps the last and then by the abandoned answers, again in order, and as many more calls stay open on the path as the store refused of those answers |
| `AgentLoop.Agent.DrainSteering` | internal/agent/agent.go:411-417 | takes all the steering there is by then and leaves none |
| `AgentLoop.Agent.Ask` | internal/agent/agent.go:242-256 | calls the model unless cancelled; every request it sends carries what waits, which ends with all the steering accepted by then that was not stored before; only compactions are stored meanwhile |
| `AgentLoop.Agent.Exchange` | internal/agent/agent.go:242-269 | every request it sends carries the turn's messages and then the steering that waited, behind the log; afterwards the conversation is settled and every message is accounted for once; exactly when the model answered and every write was taken, one record is added, of the call sent last and the log that now holds just what it sent; a failed call was made for the stored conversation and some of what waits again |
| `AgentLoop.Agent.StoreSent` | internal/agent/agent.go:257-269 | stores what the answered call carried and records it, or takes back what a refused write left |
| `AgentLoop.Agent.ActOn` | internal/agent/agent.go:270-325 | an empty reply changes nothing; any other is the next log entry, or the store refused it and no tool ran; behind it stand results of its calls in order, one for each that the store did not refuse; the conversation mirrors the log throughout |
| `AgentLoop.Agent.Open` | internal/agent/agent.go:191-269 | a turn's first requests carry its messages and then the steering that waited, behind the log |
| `AgentLoop.Agent.Converse` | internal/agent/agent.go:242-326 | acts on each reply and asks again, each time with all the steering accepted by then stored or in the request, until a reply asks for nothing; every recorded call but, after an error, the last was acted on in full |
| `AgentLoop.Agent.Turn` | internal/agent/agent.go:191-326 | through automatic compaction, a refused write anywhere, cancellation and abandoned calls the log only grows, the conversation mirrors it, exactly as many more calls are open on the path as writes were refused beside the one that may have ended the turn, every recorded call but, after an error, the last has its measured reply and one result for each of its calls in the log right behind what it sent, no request went out without the steering accepted by then, accepted messages are delivered or queued once, and an error has a cause that came about |
| `Rounds.SomeIsAll` | internal/agent/agent.go:309-325 | as many answers as calls, in order, are one for each |
| `Rounds.ActedNow` | internal/agent/agent.go:270-325 | what storing a reply and running its calls leaves in the log is what the recorded call asks for |
| `Rounds.MeasuresItsCallIff` | internal/agent/response.go:32-43 | a stored reply carries the usage of the call that produced it exactly when that call told its usage |
| `Rounds.StaleAfterCompaction` | internal/agent/compaction.go:306-310 | otherwise the newest measurement can be of what was compacted away: an overflowed request's, on a reply that came without usage after the compaction |
| `AgentLoop.Agent.Turns` | internal/agent/agent.go:168-185 | turns from the queues until a turn fails or nothing waits |
| `AgentLoop.Agent.Run` | internal/agent/agent.go:159-185 | from any conversation and any queues: everything waiting at the start or accepted since is stored or queued when it returns, once, as multisets and for follow-ups in order, and nothing more is accepted; the log only grew and all recorded calls but, after an error, the last are acted on; the path is resumable exactly when it was before and the store refused no write but one that ended the run; no request of any turn went out without the steering accepted by then; an error has a cause that came about; on success both queues are empty and the opening message is stored once |
| `AgentLoop.Agent.CloseQueues` | internal/agent/agent.go:440-444 | closes acceptance; afterwards no message enters either queue |
| `AgentLoop.Agent.Compact` | internal/agent/compaction.go:232-245 | a compaction on request changes both conversation and store, or neither and then for one of the causes of `CompactAt`, and touches no queue |
| `Registry.Runs.Reserve` | internal/server/run_manager.go:326-343 | claims a session exactly when shutdown has not begun and no run has it, with a fresh run, and otherwise changes nothing |
| `Registry.Runs.Forget` | internal/server/run_manager.go:535-546 | takes a run out of both maps: its session is free unless another run has it by now, every other session keeps its run, only its own row goes, and what waits stays |
| `Registry.Runs.Abandon` | internal/server/run_manager.go:347-351 | gives up a reservation whose run never began and closes its done channel |
| `Registry.Runs.TakePending` | internal/server/run_manager.go:577-583 | hands what an earlier run left undelivered to the next one, once |
| `Registry.Runs.Finish` | internal/server/run_manager.go:550-564 | the same in one step with keeping what the run left undelivered in its own queues, exactly if it left something |
| `Registry.Runs.StopAdmitting` | internal/server/run_manager.go:489-496 | refuses every later run and names exactly the ones to stop |
| `Registry.FinishRetries.Start` | internal/server/run_manager.go:73-99 | starts a background write under an id never used before, unless shutdown has begun |
| `Registry.FinishRetries.Done` | internal/server/run_manager.go:88-96 | an ended background write is forgotten, and no other |
| `Registry.FinishRetries.Stop` | internal/server/run_manager.go:101-111 | after it every background write is cancelled and none can start |
| `RunMachine.InvKept` | internal/server/run_manager.go:215-351 | every step of every thread keeps the registry, the row index, the done channels, the shutdown state and the account of messages in order |
| `RunMachine.ReachableInv` | internal/server/run_manager.go:215-564 | so every reachable state, in any interleaving of begin, abandon, drive, enqueue, abort, finish and stopAll, satisfies them |
| `RunMachine.OneRunPerSession` | internal/server/run_manager.go:322-343 | a session has at most one live run, which is the one registered for it |
| `RunMachine.ByIdIsCurrent` | internal/server/run_manager.go:303-306 | looking a run up by its row finds the current run of its session |
| `RunMachine.DoneClosedOnce` | internal/server/run_manager.go:347-356 | a run's done channel is closed at most once, exactly when it is over, and not before the run is out of both maps |
| `RunMachine.EndingRemovesOnlyItself` | internal/server/run_manager.go:535-564 | an ending run frees its own session and removes no other run, its successor included |
| `RunMachine.NothingAfterShutdown` | internal/server/run_manager.go:489-502 | from the moment a shutdown returns, in every continuation: no run is live, findable or admitted, and every background write has been joined |
| `RunMachine.MessageRunsLoseNothing` | internal/server/run_manager.go:215-389 | in every reachable state, for each of the two queues of a session no compaction took a message from: the messages accepted for it are, in order, those delivered from it, then those the live run holds in it, then those that wait in it for the next run |
| `RunMachine.StepLoses` | internal/server/run_manager.go:386-389 | in any reachable state any step takes exactly this from a session for good: a finishing compaction that kept messages of its own, what waited; a compaction accepting behind the reading of that queue, the message; every other step, nothing |
| `RunMachine.LosesIff` | internal/server/run_manager.go:550-564 | over any sequence of steps something of a session is lost exactly if one of them is one of those two, and what was lost stays lost |
| `RunMachine.ShutdownCanReturn` | internal/server/run_manager.go:489-502 | from every reachable state with a shutdown under way some continuation returns it |
| `RunMachine.CompactionOverwrites` | internal/server/run_manager.go:557-559 | it happens: a compaction that accepts a message loses the one that waited before it |
| `RunMachine.CompactionForgets` | internal/server/run_manager.go:386-389 | so does the other: a compaction loses a message it accepts after its queue was read |
| `Jpeg.ReadMarker` | internal/imaging/jpeg.go:56-67 | the loop over fill bytes finds the marker the byte-level definition gives, and fails exactly where it has none |
| `Jpeg.MarkerIsThere` | internal/imaging/jpeg.go:56-67 | a marker found is the last of a row of 0xff bytes and the first byte after them |
| `Jpeg.ReadHeader` | internal/imaging/jpeg.go:83-111 | the loop returns the header segments in order and the start of the first scan, with its error cases |
| `Jpeg.SkipEntropy` | internal/imaging/jpeg.go:141-157 | stepping over stuffed bytes and restart markers two at a time reaches the same place as looking at every byte |
| `Jpeg.EntropyEndIsFirst` | internal/imaging/jpeg.go:141-157 | that place is the first 0xff followed by neither a zero, a restart marker nor fill, or the end of the file |
| `Jpeg.ReadEnd` | internal/imaging/jpeg.go:116-136 | the loop returns the offset past the end-of-image marker, over any number of scans |
| `Jpeg.Strip` | internal/imaging/jpeg.go:163-180 | the bytes kept are the opening marker, the kept segments, and the image's scans to its end |
| `Jpeg.EndFromLocal` | internal/imaging/jpeg.go:116-136 | where an image ends depends only on its bytes from its first scan to that end, wherever they stand |
| `Jpeg.HeaderLocal` | internal/imaging/jpeg.go:83-111 | the header depends only on the bytes up to the end of the first scan's own segment |
| `Jpeg.SegmentsReadBack` | internal/imaging/jpeg.go:83-111 | well-formed segments written one after the other before a scan are read back as they are |
| `Jpeg.StrippedReparses` | internal/imaging/jpeg.go:163-180 | parsing a stripped image gives exactly the kept segments in order, the scan bytes unchanged, and an end equal to its length |
| `Jpeg.StrippedKeepsNoMetadata` | internal/imaging/jpeg.go:183-195 | the segments of a stripped image are exactly those of the original that are neither a comment nor application data, but for JFIF, Adobe and a colour profile, told by their marker codes and bytes; each once and in order |
| `Jpeg.LengthReadBack` | internal/imaging/jpeg.go:70-80 | a segment's two bytes of length, the high one first, counting themselves, are read back |
| `Jpeg.StandaloneCodes` | internal/imaging/jpeg.go:70-80 | which marker codes have no length |
| `Jpeg.StripIsIdempotent` | internal/imaging/jpeg.go:163-180 | stripping a stripped image changes nothing |
| `Jpeg.StripIgnoresWhatFollows` | internal/imaging/jpeg.go:116-180 | whatever bytes follow the end-of-image marker, the result is the same |
| `Orient.Turn` | internal/imaging/imaging.go:267-306 | every pixel of the image ends where its orientation puts it, and every pixel of the result is written exactly once, for every size and orientation |
| `Orient.TurnUnique` | internal/imaging/imaging.go:267-306 | that determines the result |
| `Orient.PlaceIsExif` | internal/imaging/imaging.go:280-297 | a pixel's row and column are its distances from the sides the Exif table of orientations names for rows and columns |
| `Orient.TurnUndone` | internal/imaging/imaging.go:267-306 | orientations 2, 3, 4, 5 and 7 are their own inverses, and 6 and 8 undo each other |
| `Orient.TurnsAreMirrors` | internal/imaging/imaging.go:280-297 | each turn is made of the two mirrors and the transposition |
| `Orient.FitInBox` | internal/imaging/imaging.go:168-178 | the fitted size lies in 1920 by 1080, the longer side along the image's own, never larger than the image nor empty; an image in the box is kept, any other touches a side of it |
| `Orient.FitKeepsAspect` | internal/imaging/imaging.go:168-178 | both sides are scaled by the same ratio, to within half a pixel or up to one pixel |
| `Orient.FitIdempotent` | internal/imaging/imaging.go:168-178 | fitting a fitted size changes nothing |
| `Sse.SplitIsFirstLine` | internal/mcp/sse.go:88-109 | a line split off what has arrived is the first line of the whole stream, whatever is still to come; none is split off only if more is needed |
| `Sse.Scanner.Scan` | internal/mcp/sse.go:29-34 | however a body is cut into reads, also empty ones and between CR and LF, the lines are those of its bytes |
| `Sse.LinesReadBack` | internal/mcp/sse.go:88-109 | lines written with any unambiguous mixture of CRLF, LF and CR are read back as they are |
| `Sse.Reader.Next` | internal/mcp/sse.go:41-85 | returns the next event of the standard's fold over the stream's lines, or none exactly when there is none |
| `Sse.Reader.All` | internal/mcp/legacysse.go:108-122 | reading to the end returns every event of the body's bytes in order |
| `Sse.BlockDispatches` | internal/mcp/sse.go:41-85 | a block of lines is one event when it has a data field: its data values joined by newlines under its last event name, and otherwise nothing |
| `Sse.FieldLine` | internal/mcp/sse.go:41-85 | a field's name ends at the first colon and its value begins behind it, less one leading space; a line without a colon is a name without a value |
| `Sse.CommentIgnored` | internal/mcp/sse.go:41-85 | a line that begins with a colon changes nothing |
| `Sse.EventReadBack` | internal/mcp/sse.go:41-85 | an event written with a name and any number of data lines is read back: that name, or message without one, and the data joined by newlines |
| `Sse.UnfinishedBlockDropped` | internal/mcp/sse.go:76-84 | an event the stream ends in the middle of is not dispatched |
| `Headers.DecodedEncoded` | internal/mcp/headers.go:19 | base64 text decodes to the bytes that were encoded |
| `Headers.AlphabetIs` | internal/mcp/headers.go:19 | the sixty-four letters are those of the standard's table |
| `Headers.LettersAreDigits` | internal/mcp/headers.go:19 | three bytes and their four letters are the same number, the highest first; one or two bytes are padded over zeros |
| `Headers.DecodedLenIsLength` | internal/mcp/content.go:180-182 | the decoded length computed from an encoding's length and padding is the number of bytes encoded |
| `Headers.PlainIff` | internal/mcp/headers.go:29-40 | a value travels unencoded exactly when every character is a tab or between 0x20 and 0x7e and neither end is a space or a tab |
| `Headers.HeaderValueIsPlain` | internal/mcp/headers.go:15-20 | every value is rendered as one that can travel in a header |
| `Headers.HeaderReadsBack` | internal/mcp/headers.go:15-25 | the value is recovered from its rendering, and plain and sentinel renderings never collide |
| `Headers.HeaderValueInjective` | internal/mcp/headers.go:15-20 | different values have different renderings |
| `Lru.Cache.Get` | internal/search/cache.go:34-50 | a hit moves its key to the front and returns its value; an expired entry is dropped from map and list |
| `Lru.Cache.Put` | internal/search/cache.go:54-69 | stores the value at the front and evicts the oldest keys past the size |
| `Lru.RunSound` | internal/search/cache.go:34-69 | over any trace map and list hold the same distinct keys and no more than the size |
| `Lru.FoundWhileFew` | internal/search/cache.go:34-69 | an unexpired entry is found with its latest value whenever fewer than `size` other keys were put or hit since it last was |
| `Lru.FoundIsLatest` | internal/search/cache.go:34-50 | what is found was put last under its key, less than its lifetime ago |
| `Bus.Subscription.Deliver` | internal/event/bus.go:134-149 | queues a wanted event after the notice of what was lost, or counts it lost |
| `Bus.Bus.Emit` | internal/event/bus.go:38-48 | every open subscription is delivered the event once |
| `Bus.LossesAccounted` | internal/event/bus.go:134-166 | in every interleaving, what was read and is queued, each notice standing for as many losses as it names and the unreported ones last, matches the events offered one for one and in order; the buffer never overflows |
| `Bus.QueuedWhenRoom` | internal/event/bus.go:134-166 | a wanted event is queued whenever there is room, behind the notice of what was lost if any was |
| `Bus.UnwantedChangesNothing` | internal/event/bus.go:134-149 | an event of another topic, or after closing, changes nothing |
| `Bus.NothingLostWithRoom` | internal/event/bus.go:134-166 | a subscription whose buffer never fills misses nothing, over any interleaving |
| `Bus.NoLossesNoGaps` | internal/event/bus.go:134-166 | a reader that was told of no loss and has none pending has every event it was offered |
| `Bus.NothingAfterClose` | internal/event/bus.go:117-149 | after closing only what was already queued can be read |
| `Tracker.Tracker.Update` | internal/search/usage.go:155-171 | changes one bucket's counters as of now and writes exactly those through, if the store takes them |
| `Tracker.CountersCount` | internal/search/usage.go:89-137 | a bucket's counters are the uses of the day and of the month, and its streak the failures since the last use |
| `Tracker.CooldownIsLater` | internal/search/usage.go:89-151 | a bucket whose last search failed rests until the later of what the service asked for and the backoff of its failures in a row, any other not at all; reading does not change it |
| `Tracker.BackoffDoubles` | internal/search/usage.go:142-151 | each failure in a row doubles the cooldown from fifteen minutes up to six hours |
| `Tracker.InvAlways` | internal/search/usage.go:155-171 | with any number of threads, what is made but not written is at most the saver's own update followed by the holder's |
| `Tracker.WritesFollowUpdates` | internal/search/usage.go:62-67 | the store is written in exactly the order of the updates, and with no update under way every one was written |
| `Tracker.StoreHasLastUpdate` | internal/search/usage.go:155-171 | with every write taken, a tracker at rest has stored each bucket's latest counters |
| `Tracker.NeverDeadlocked` | internal/search/usage.go:155-171 | while an update is under way some thread can go on |
| `Config.Over` | internal/provider/sampling.go:59-76 | every parameter the upper layer sets wins and every other comes from the lower |
| `Config.Resolve` | internal/server/configuration.go:201-286 | the bottom-up pass gives what the top-down rule gives, and fails with the lowest layer that does not decode |
| `Config.ParamFromTopmost` | internal/server/configuration.go:260-273 | a sampling parameter comes from the topmost layer that sets it, under that layer's name |
| `Config.ParamFromRow` | internal/server/configuration.go:260-273 | one that no layer sets comes from the model row, or is not sent |
| `Config.ModelSamplingIs` | internal/server/configuration.go:308-320 | a model row sets a maximum output if positive and an effort if named, and nothing else |
| `Config.EffortOffered` | internal/server/configuration.go:274-283 | a reasoning effort the model does not offer falls through to the row's own and is reported as dropped; any other is the topmost layer's |
| `Config.ValuesFromTopmost` | internal/server/configuration.go:231-258 | the prompts, instructions, context files, preserving of thinking and tools come from the topmost layer that sets each as well |
| `Config.ModelFromTopmost` | internal/server/configuration.go:221-230 | the model is the one named by the topmost layer that names a configured one |
| `Config.ValuesUnset` | internal/server/configuration.go:201-258 | a value no layer sets is the default, preserving of thinking the model row's, each under that name |
| `Config.Inherited` | internal/server/configuration.go:288-306 | for every value and sampling parameter a layer leaves unset, what it is shown to inherit is what resolving with it gives, value and source, also when an effort is dropped; it fails exactly when the layers below do not decode |

## Left out

- The model of a run starts once its prompt exists: a run whose prompt cannot be assembled returns before its queues are closed.
- The agent's store is always there, its head is moved by nothing else while a run goes on, and an append is atomic; entries encode messages exactly but for the spelling of empty arguments.
- A configured maximum output is at least 1, which sampling validation ensures.
- Every run of the loop ends because the endpoint gives finitely many replies, a number the model does not bound.
- AgentLoop.Agent.Run: that the requests it sends are well paired is promised from a conversation whose calls are all answered; what happens from any other is `FirstRequestPairedIff`.
- AgentLoop.Agent.Turn: an event, a log line, a title, a price or a timing is not part of the state; of a reply's metrics only the measured context is kept.
- Compacting.CallModel: a reply that overflowed without an error is recognised by exact arithmetic (100 times the input against 99 times the window) rather than in floating point.
- Summaries.Summary: the prompts' wording, the trimming of a focus, the transcript's text, which shortens long tool results, and the cleaning of a reply are arbitrary text functions.
- RunMachine.MessageRunsLoseNothing: a run delivers from the front of its queues here; that a failed turn can invert its own steering is said of the agent (`RestoringKeepsOrderIff`). The agent's loop is one step per delivered message here, and any step may be its last; that a turn which fails puts its messages back is proved of the agent itself (`AgentLoop.Agent.Run`), and the two are not joined into one machine.
- RunMachine.ShutdownCanReturn: that some continuation returns, not that a fair scheduler takes it.
- RunMachine.NothingAfterShutdown: a run already past finishing when shutdown begins is not waited for, in the code either; it has no session, no row in the index and no background write left to start.
- Enqueueing an image for a model that reads none, child runs, stopping a workspace's sessions and reading a run's row are requests around the registry's steps.
- Jpeg.Strip: decoding pixels, EXIF orientation tags and WebP chunks are not modelled.
- Orient.FitInBox: exact real arithmetic instead of floating point.
- Image codecs, resampling, colour conversion and the choice of JPEG quality.
- Sse.Reader.Next: the limits on the size of a line and of an event, the byte-order mark, ids and retry times.
- Sse.Scanner.Scan: a scanner gives up after a hundred consecutive empty reads; here any number may be empty. A read error ends the lines as the end of the body does.
- Tool results' text and media budgets, and cutting a long text in the middle, which are single loops with no state shared beyond them.
- Lru.Cache.Get: the list of entries is a sequence of keys, its elements' identities are not modelled.
- Tracker.Tracker.Update: times are whole minutes, and the day and month of a moment are given with it. Deadlines read from response headers are not part of this model.
- Config.Resolve: a sampling layer is a map from parameter names to values, and decoding it from JSON either succeeds or fails.
- HTTP handlers, the MCP client and its transports, the SQL store, settings, authentication, Docker, terminals, the egress proxy and path confinement.
