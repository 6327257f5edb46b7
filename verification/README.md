# Saarthi: a verified model of its turn protocol, Mitra channel and scoped configuration

Saarthi routes chat turns to agents, delegates interviews to the remote Mitra
service, and keeps everything in one Postgres database. This project models the
three parts of it that hold state worth arguing about, and proves what they keep.

1. **Turns and sessions.** `TurnProtocol` is a state machine whose steps are single
   SQL statements of the chat, finalise, resume, abandon and sweep requests on one
   conversation. Any number of connections interleave; writes are invisible until
   commit, a written row stays locked, a rollback drops everything. `TurnInvariant`
   and `TurnSteps` carry one invariant through every statement; `TurnSafety` draws
   the theorems; `TurnOutcomes` says what undisturbed requests come to;
   `TurnWitness` exhibits a run. `SessionLifecycle` is the row and its
   transition table, `SessionStore` the service over many conversations in one
   transaction, `Titles`, `TurnLimits` and `Transcript` the title rule, the rate
   limit and paging.
2. **The Mitra channel, its pool, and recovery.** `MitraTurn` is a timed fold over
   the frames of a turn and `MitraChannel` the loop that refines it. `ChannelPool` is
   the least-recently-used pool, as interleaved critical sections and as an object.
   `RemoteTurns` follows whose remote session the pooled channel is, over the turns of
   a conversation, and `RemoteFlow` is the handler that sends on it. `TurnRecovery` is
   the reconciliation of a lost turn with Mitra's log, `LeakedPayload` the recovery of
   text from a leaked payload.
3. **Scoped, versioned configuration.** `ConfigHistory` and `ConfigSync` are the
   version table, with its unique indexes checked statement by statement, under the
   startup sync and the admin writers. `ScopeResolution` is the most-specific-wins
   query and the two resolvers that must agree. `HandlerCache` is the registry
   snapshot and the two caches behind it, `StaleReaders` many turns on them with
   reloads in between. `CapabilityDocument` and `ChatTimeline` are
   the frontend's normaliser and timeline.

Code that updates fields is a class whose methods are proved equal to a function on
values; the theorems are about that function, over every run. `Prelude` and `Text`
hold shared shapes.

## Where the code and its documentation part

- *"Most specific wins", three levels* (`backend/app/services/capability_service.py:8-20`): a row at the
  default tenant and the caller's organization outranks the tenant's own default
  row. `RuleHoldsIff` says exactly when the rule holds.
- *"Force means the YAML is truth"* (`backend/app/services/config_sync.py:220-221`): an older YAML version
  that someone activated survives a force sync (`YamlActiveIff`,
  `ForceKeepsOlderYaml`).
- *"A duplicate is structurally impossible"* (`backend/app/services/orchestration.py:600-606`): the claim is
  undone when its transaction rolls back after the call
  (`FinalizeCallsAccounted`, `RolledBackFinalizeRepeats`, `SecondSubmissionReachable`).
- *"touch() COALESCEs the title, so the first message still wins"*
  (`backend/app/services/orchestration.py:231-238`): not if an empty message is typed over a placeholder
  (`TitleRuleIff`, `BlankIsForever`).
- *"NOT_DELIVERED, and only this, makes re-sending safe"* (`backend/app/integrations/mitra/turn_recovery.py:44-45`): a
  row recorded between the two requests for the window can be missed
  (`RaceMissesFreshRow`), and an undelivered repeat is taken for the earlier answer
  (`UndeliveredRepeatIsMisread`).
- *"A reload invalidates every scoped entry for free"* (`backend/app/services/agent_registry.py:37-39`): not
  for a turn that read the agent before the reload (`StaleReaderPoisons`,
  `AnswerIsTrueIff`).
- *Re-authentication is right because the caller's fresh remote session id flows into
  the new channel* (`backend/app/integrations/mitra/session_manager.py:14-16`): on a hit
  there is no new channel. After a first turn that timed out, or an exit, the pooled
  one is of another remote session; `HandedMatchesIff` says exactly when,
  `TimeoutThenForeignAnswer` and `ExitRun` show how.
- *The sidebar and the registry resolve alike* (`backend/app/services/agent_registry.py:189-190`): not for an
  agent configured for one tenant only, nor for a caller of the default tenant with a
  row at their organization (`ResolversAgreeIff`).

## Model

| member | source | states |
|---|---|---|
| `SessionLifecycle.TableIsMonotone` | backend/app/services/session_service.py:34-44 | every entry of the lifecycle table keeps or raises a rank, and a state allows nothing exactly when it is terminal |
| `SessionLifecycle.WhereFrom` | backend/app/services/session_service.py:34-44 | the table read by its targets: the states each state can be reached from |
| `SessionLifecycle.ApplyOutcome` | backend/app/services/session_service.py:129-174 | an `apply` on a well-formed row succeeds exactly when the transition is in the table, the row is still in the state that was read, and the CHECK constraints' two data conditions hold |
| `SessionLifecycle.ApplyColumns` | backend/app/services/session_service.py:129-174 | each column after an `apply`: what the delta leaves out stays, what it brings replaces, the turn is counted and dated, ending and completing are dated |
| `SessionLifecycle.ApplyKeepsRow` | backend/app/services/session_service.py:129-174 | any delta `apply` accepts leaves the row well formed: terminal iff ended, completed iff finalized, active implies a remote id; the row is a newer version exactly when the delta does not rename the remote id, and stays without one while pending exactly when no pending delta brings one |
| `SessionLifecycle.ClaimKeepsRow` | backend/app/repositories/sessions.py:121-134 | the claim succeeds exactly from in_progress or awaiting_user and cannot succeed again on its own result |
| `SessionLifecycle.RetireKeepsRow` | backend/app/repositories/sessions.py:136-166 | abandon and sweep end an open row and keep it well formed |
| `TurnSteps.StepKeeps` | backend/app/services/orchestration.py:200-408 | the whole protocol invariant (one open session, pin, row locks, turn lock, numbering, finalize accounting) is kept by every statement of every request on any connection, and by crashes |
| `TurnSteps.RunKeeps` | backend/app/services/orchestration.py:200-702 | the invariant holds after any interleaving of any number of connections |
| `TurnSteps.CreationUnhindered` | backend/app/repositories/sessions.py:74-94 | a turn about to create a session never meets the one-open-session index, committed or in another transaction |
| `TurnSteps.InsertFillsGap` | backend/app/repositories/conversations.py:139-151 | the number a request allocated is free in the committed log and in its own transaction when it inserts |
| `TurnSafety.OneTurnAtATime` | backend/app/services/orchestration.py:200-219 | in every interleaving at most one connection is between its try-lock and its unlock, across the mid-turn commit |
| `TurnSafety.LockFreeIff` | backend/app/services/orchestration.py:419-457 | the advisory lock is free exactly when no turn runs and none left it behind by failing to unlock in an aborted transaction |
| `TurnSafety.RefusedTurnWritesNothing` | backend/app/services/orchestration.py:200-219 | in every reachable state, so with any steps of others in between, each of the two steps of a refused turn moves it on and changes no row, message or lock |
| `TurnSafety.OpenSessionIsPinned` | backend/app/services/session_service.py:70-119 | every committed state has at most one open session and the conversation is pinned to its agent |
| `TurnSafety.TurnOpensForItsAgent` | backend/app/services/orchestration.py:303-321 | when a turn commits after `open_for`, the open session if any is its own agent's |
| `TurnSafety.NoConstraintFires` | backend/app/models/orm.py:192-204 | no statement of any request violates the message numbering, the one-open-session index or the three CHECKs on state, end time, remote id and result; only an outside failure aborts a transaction |
| `TurnSafety.TranscriptIsDense` | backend/app/repositories/conversations.py:139-151 | in every committed state the message numbers are exactly 1..message_count, turns and resumes interleaved |
| `TurnSafety.CommittedRowsFit` | backend/app/models/orm.py:192-201 | every committed row is terminal iff ended, completed iff finalized, and past pending has a remote id |
| `TurnSafety.SessionsOnlyAge` | backend/app/services/session_service.py:34-44 | over any run a committed session never disappears, never steps back in rank, never changes once terminal, and keeps its agent and remote identity |
| `TurnSafety.FinalizeCallsAccounted` | backend/app/services/orchestration.py:597-702 | remote finalize calls for a session equal the rolled-back claims that made one, plus one exactly when its newest version records a call |
| `TurnSafety.FinalizeAtMostOnce` | backend/app/repositories/sessions.py:121-134 | if no transaction rolls back after the call, a session is submitted at most once, whatever turns, forced finalises, abandons and sweeps interleave |
| `TurnSafety.ClaimCommitsAtMostOnce` | backend/app/repositories/sessions.py:121-134 | over any run a claim on a session commits at most once, and not at all once it is claimed, failed or retired |
| `TurnSafety.UndoneOnlyByRollback` | backend/app/dependencies/db.py:91-97 | a call is undone only by the teardown that rolls back after an escaping exception or an aborted transaction |
| `TurnSafety.TerminalTurnWinsItsClaim` | backend/app/services/orchestration.py:349-353 | a terminal turn's own delta never defeats its own finalisation claim |
| `TurnSafety.RolledBackFinalizeRepeats` | backend/app/services/orchestration.py:679-689 | without the no-rollback hypothesis the bound fails: a non-Mitra error after the call undoes the claim, changes no row, and the call can be made again |
| `TurnSafety.ResumeAppendsEachTime` | backend/app/services/orchestration.py:563-578 | resume is not idempotent: an answered resume adds one message each time the session can still await the user, and otherwise changes nothing |
| `TurnOutcomes.OrdinaryTurn` | backend/app/services/orchestration.py:200-408 | from any reachable state an undisturbed turn commits two messages with the next two numbers, the handler's delta on its session, the pin, and a free lock, and nothing else |
| `TurnOutcomes.TurnReusesSession` | backend/app/services/orchestration.py:303-321 | a turn routed to the agent of the open session takes that very session to its handler and commits no change to it |
| `TurnOutcomes.ForcedFinalizeFails` | backend/app/services/orchestration.py:624-655 | a forced finalise whose call fails with a Mitra error commits the session failed, dated and with the error, and keeps the pin |
| `TurnOutcomes.ForcedFinalizeCompletes` | backend/app/services/orchestration.py:624-702 | one whose call succeeds commits it completed with story, report address and dates, and unpins |
| `TurnOutcomes.TerminalTurnFails` | backend/app/services/orchestration.py:349-457 | a terminal turn whose call fails commits the session failed on top of its delta, records no reply and frees the lock |
| `TurnOutcomes.TerminalTurnCompletes` | backend/app/services/orchestration.py:349-457 | one whose call succeeds commits it completed and unpinned with the agent's message next in the transcript, and frees the lock |
| `TurnOutcomes.RetirementUnpins` | backend/app/services/session_service.py:185-213 | an undisturbed retirement abandons the open session with its reason, unpins, and changes nothing else |
| `TurnOutcomes.ExitUnpins` | backend/app/services/router_service.py:128-134 | a turn whose message leaves the agent has by its mid-turn commit abandoned the session and unpinned, and goes on without a session |
| `TurnWitness.SecondSubmissionReachable` | backend/app/routers/sessions.py:90-108 | a run from the initial state in which one session is submitted twice, through two forced finalises |
| `SessionStore.Service.OpenFor` | backend/app/services/session_service.py:70-119 | an open session of the agent is handed back and nothing is written; another agent's is retired as agent_switch with one audit row; a created row is pending and new; with none open and no pinning nothing changes; afterwards the conversation's open session is exactly the one handed back |
| `SessionStore.Service.Apply` | backend/app/services/session_service.py:129-174 | for any delta the guarded update equals the specified one and keeps the store consistent; it ages the row exactly when the delta does not rename its remote id |
| `SessionStore.Service.ClaimFinalizing` | backend/app/services/session_service.py:176-180 | the claim is won exactly from a claimable state and writes the state alone |
| `SessionStore.Service.Abandon` | backend/app/services/session_service.py:185-213 | exactly the open session if any is retired, unpinned and audited |
| `SessionStore.Service.SweepAbandoned` | backend/app/services/session_service.py:215-232 | exactly the idle open sessions of all conversations are retired, exactly their conversations unpinned, one audit row each |
| `SessionStore.SweepConsistent` | backend/app/repositories/sessions.py:153-166 | a bulk sweep across conversations keeps one open session per conversation and open implies pinned to its agent |
| `SessionStore.CreateConsistent` | backend/app/repositories/sessions.py:74-94 | creating and pinning in a conversation without an open session keeps the same |
| `MitraTurn.TurnIsDecided` | backend/app/integrations/mitra/ws_channel.py:194-287 | every timed frame sequence on every socket has one cut; the turn is lost iff the socket is dead at the loop's last look, else it is decided by exactly the frames of the cut, at the time they determine |
| `MitraTurn.TurnIsDecidedByPrefix` | backend/app/integrations/mitra/ws_channel.py:194-287 | on a socket that outlives the deadline: in-order text, last choices, last step of the consumed prefix, flushed if no frame ended it |
| `MitraTurn.HeardText` | backend/app/integrations/mitra/ws_channel.py:248-276 | the accumulated text is the concatenation of the bot messages, nothing of the user's or system's |
| `MitraTurn.OutcomeSays` | backend/app/integrations/mitra/ws_channel.py:233-287 | on any socket: a reply is the whole bot text of the frames consumed, or the re-prompt exactly when that is empty and a payload leaked, with the last choices and the last step; a timeout has no text to leave out; an error is the system's words |
| `MitraTurn.InTimeIff` | backend/app/integrations/mitra/ws_channel.py:206-242 | a frame is in time exactly before the deadline and within the gap after the last bot frame before it |
| `MitraTurn.TimeoutIff` | backend/app/integrations/mitra/ws_channel.py:237-242 | a turn times out exactly when the frames in time end nothing, carry no bot text and no leaked payload |
| `MitraTurn.EarlyTimeoutIff` | backend/app/integrations/mitra/ws_channel.py:233-242 | a timeout before the deadline happens exactly when the bot sent only empty chunks and then fell silent for the gap |
| `MitraTurn.SilenceWaitsForDeadline` | backend/app/integrations/mitra/ws_channel.py:213-236 | before the first bot frame only the turn deadline applies, however many echoes arrive |
| `MitraTurn.EchoesAreInvisible` | backend/app/integrations/mitra/ws_channel.py:247-253 | on any socket whose frames arrive before it dies, dropping every echo and ignored frame leaves outcome and time the same |
| `MitraTurn.OverByDeadline` | backend/app/integrations/mitra/ws_channel.py:206-242 | every turn is over by its deadline |
| `MitraChannel.Channel.SendAndAwaitTurn` | backend/app/integrations/mitra/ws_channel.py:194-287 | the answer says exactly what the bot said in the frames consumed (text, last choices, last step, the re-prompt only for an empty text with a leaked payload), nothing is lost or read twice, one send, the turn lock freed on every exit; a busy channel is refused untouched |
| `MitraChannel.Channel.Accumulate` | backend/app/integrations/mitra/ws_channel.py:209-287 | the accumulation loop refines the fold |
| `MitraChannel.Channel.TryGet` | backend/app/integrations/mitra/ws_channel.py:111-120 | the pushed-back frame first, else the next frame strictly before the timeout, else nothing |
| `MitraChannel.Channel.DrainStale` | backend/app/integrations/mitra/ws_channel.py:125-134 | drops exactly the frames already queued, never the pushed-back one |
| `MitraChannel.Channel.Authenticate` | backend/app/integrations/mitra/ws_channel.py:164-188 | the settle loop, polled in slices, comes to what the declarative handshake says |
| `MitraChannel.SettleKeepsFirstBotFrame` | backend/app/integrations/mitra/ws_channel.py:168-188 | the first bot frame of the window is kept unless an acknowledgement came first; a dead socket is reported iff neither came |
| `MitraChannel.OpeningFrameReachesTheTurn` | backend/app/integrations/mitra/ws_channel.py:122-134 | a bot frame kept while settling is part of the next turn, which then cannot time out if it says anything |
| `MitraChannel.LateReplyIsAnswerIff` | backend/app/integrations/mitra/ws_channel.py:194-202 | a late reply to a turn given up on is dropped if it is queued before the next send, and is the next turn's answer if it arrives after it |
| `ChannelPool.RunKeeps` | backend/app/integrations/mitra/session_manager.py:62-149 | over any interleaving of acquire, take, close, close_all, reap and death: keys of order, channels and last use agree, order is by last use, the limit holds, every channel is exactly one of pooled, in hand, closed |
| `ChannelPool.NothingLeaks` | backend/app/integrations/mitra/session_manager.py:62-149 | once no thread holds one in hand, every unclosed channel is the pooled one of its conversation, so a conversation has at most one |
| `ChannelPool.ExtraChannelsAreInHand` | backend/app/integrations/mitra/session_manager.py:87-116 | two unclosed channels of one conversation mean a thread is about to close one |
| `ChannelPool.AcquireGives` | backend/app/integrations/mitra/session_manager.py:62-85 | acquire returns a live channel of the conversation and makes it most recent; a hit opens nothing, a miss opens one, a limit below one never does |
| `ChannelPool.EvictsLeastRecentlyUsed` | backend/app/integrations/mitra/session_manager.py:118-125 | whoever is evicted was used no later than everyone kept, only when full, and is closed |
| `ChannelPool.NoEvictionWithRoom` | backend/app/integrations/mitra/session_manager.py:118-125 | below the limit a miss evicts nobody |
| `ChannelPool.SurvivesBelowLimit` | backend/app/integrations/mitra/session_manager.py:62-125 | over any run a live channel keeps its place while fewer than the limit of other conversations acquire after its last use |
| `ChannelPool.LostAtLimit` | backend/app/integrations/mitra/session_manager.py:62-125 | that bound is exact: once that many others have acquired, an unused conversation has lost its channel |
| `RemoteTurns.HandedMatchesIff` | backend/app/integrations/mitra/session_manager.py:62-85 | over every run of turns and everything beside them, the channel handed to a turn whose row is open was opened for its remote session exactly when, since it was opened, no turn that generated its session ended without its delta applied and no retirement left it pooled |
| `RemoteTurns.HandedMatchesTurnIff` | backend/app/agents/remote_flow_handler.py:59-91 | the same for any turn in flight, whatever was retired under it: exactly when the channel was opened since the turn began or was unspoilt then |
| `RemoteTurns.TidyRunsMatch` | backend/app/services/router_service.py:128-134 | if every turn that generates a session is answered, and no retirement leaves a channel pooled or catches a turn in flight, no channel is ever spoilt |
| `RemoteTurns.TimeoutRun` | backend/app/agents/remote_flow_handler.py:59-84 | a first turn that times out: the next one is handed the forgotten session's channel |
| `RemoteTurns.ExitRun` | backend/app/services/router_service.py:128-134 | an exit after an answered turn: the next one is handed the retired session's channel |
| `ChannelPool.StaleRemoteReturned` | backend/app/integrations/mitra/session_manager.py:68-73 | a run of two turns in which the pool hands back a channel of an earlier remote session |
| `ChannelPool.NeverReturns` | backend/app/integrations/mitra/session_manager.py:87-97 | a channel taken out of the pool never comes back, whatever other threads do |
| `ChannelPool.Manager.EvictIfNeeded` | backend/app/integrations/mitra/session_manager.py:118-125 | popping from the front one by one removes exactly the surplus |
| `ChannelPool.Manager.Acquire` | backend/app/integrations/mitra/session_manager.py:62-85 | the method equals the specified acquire |
| `ChannelPool.Manager.Reacquire` | backend/app/integrations/mitra/session_manager.py:87-97 | undisturbed, the caller gets a channel newly opened for its session and the old one is closed |
| `ChannelPool.Manager.CloseAll` | backend/app/integrations/mitra/session_manager.py:106-113 | nothing stays pooled and every channel not already in a thread's hand is closed |
| `ChannelPool.Manager.ReapOnce` | backend/app/integrations/mitra/session_manager.py:134-149 | exactly the dead and idle channels go, the others are untouched |
| `TurnRecovery.Reconcile` | backend/app/integrations/mitra/turn_recovery.py:78-112 | the two scans compute the verdict of the specification |
| `TurnRecovery.AnsweredIff` | backend/app/integrations/mitra/turn_recovery.py:86-110 | answered exactly when a last user row carries the text and a bot row follows it; the verdict is then the first such row's trimmed message, stage and id |
| `TurnRecovery.NotDeliveredIff` | backend/app/integrations/mitra/turn_recovery.py:94-97 | not delivered exactly when no user row carries the text |
| `TurnRecovery.DeliveredIsJudgedByWhatFollows` | backend/app/integrations/mitra/turn_recovery.py:86-110 | a delivered turn is judged only by what followed it, whatever identical answers came before |
| `TurnRecovery.UndeliveredRepeatIsMisread` | backend/app/integrations/mitra/turn_recovery.py:86-91 | an undelivered turn is reported as such exactly when no earlier user row carries the same text |
| `TurnRecovery.TailVerdictIff` | backend/app/integrations/mitra/turn_recovery.py:78-112 | the verdict on a tail is the verdict on the log exactly when the last match is in the tail or there is none |
| `TurnRecovery.VerdictIsStable` | backend/app/integrations/mitra/turn_recovery.py:99-112 | rows that are not ours never change an answer and move a pending turn only to answered |
| `TurnRecovery.WindowIs` | backend/app/integrations/mitra/rest_client.py:291-312 | the two requests fetch exactly the last rows as of the first, plus newer ones only where there is room |
| `TurnRecovery.WindowVerdict` | backend/app/integrations/mitra/rest_client.py:271-312 | on the fetched window: wrongly not delivered exactly when our row is older than the window; an answer is always the true one |
| `TurnRecovery.RaceMissesFreshRow` | backend/app/integrations/mitra/rest_client.py:291-302 | a row recorded between the two requests is missed exactly when the first saw none or a full window |
| `TurnRecovery.MatchingIgnoresPadding` | backend/app/integrations/mitra/turn_recovery.py:57-67 | whitespace around the sent text never matters and a blank text matches nothing |
| `TurnRecovery.OursIff` | backend/app/integrations/mitra/turn_recovery.py:57-67 | a row matches exactly when it is the user's, the text is not blank, and the row's message or its translation is the same text up to white space at both ends |
| `RemoteFlow.Handle` | backend/app/agents/remote_flow_handler.py:46-124 | the result case by case: which error when; for an answer its text, the turn's step, remote session and profile, and terminal exactly when the poll says complete; and, step by step on the pool with other threads at work, the specified handling |
| `RemoteFlow.HandleFitsProtocol` | backend/app/agents/remote_flow_handler.py:82-124 | at most two sends, the second only after a dead channel; a timeout is never retried; an answer's delta satisfies the protocol's handler contract |
| `RemoteFlow.SendsMatchIff` | backend/app/agents/remote_flow_handler.py:82-91 | the first send goes to the turn's own remote session exactly when the pool matches it; the second does unless another thread pooled a channel in between |
| `RemoteFlow.AnswerNamesItsSessionIff` | backend/app/agents/remote_flow_handler.py:98-124 | the delta carries the turn's own session, and names the one that answered exactly after a reconnection or when the pool matched |
| `RemoteFlow.FirstSendIsOwnIff` | backend/app/agents/remote_flow_handler.py:59-84 | called after any run of turns, the handler's first send goes to the turn's own session exactly when the channel it goes on is unspoilt |
| `RemoteFlow.TimeoutThenForeignAnswer` | backend/app/agents/remote_flow_handler.py:59-91 | two first turns through the handler: the second's message goes to the forgotten session, whose answer is stored under the other id; and the two sends differ if that socket dies |
| `RemoteFlow.Recover` | backend/app/services/orchestration.py:488-538 | a timed-out turn is recovered exactly when the record shows an answer and the session has its remote identity, without sending |
| `LeakedPayload.Recover` | backend/app/integrations/mitra/frame_parser.py:152-182 | the recursive recovery equals one join, in document order, over the whole payload |
| `LeakedPayload.PlacesExact` | backend/app/integrations/mitra/frame_parser.py:152-182 | what is shown are exactly the non-blank strings under `response`, reached through lists and `response` only, down to the depth cap |
| `LeakedPayload.PlacesInOrder` | backend/app/integrations/mitra/frame_parser.py:178-180 | in document order, each once |
| `LeakedPayload.OnlyResponsesCount` | backend/app/integrations/mitra/frame_parser.py:166-176 | payloads that agree on their `response` strings recover to the same words, whatever their other keys hold |
| `LeakedPayload.NothingShownIff` | backend/app/integrations/mitra/frame_parser.py:152-182 | the recovered text is empty exactly when no such string exists |
| `LeakedPayload.OneString` | backend/app/integrations/mitra/frame_parser.py:152-182 | one string under `response` shows, trimmed; under another key, blank, or in a bare list, nothing does |
| `LeakedPayload.CoerceMessage` | backend/app/integrations/mitra/frame_parser.py:185-202 | only objects and lists count as leaked payloads; strings pass unchanged |
| `ConfigHistory.SyncPlanEffect` | backend/app/services/config_sync.py:213-291 | whatever a sync issues for an agent, no statement violates an index, and the rows come to the specified effect with exactly one active |
| `ConfigHistory.CreatePlanEffect` | backend/app/routers/admin.py:213-236 | deactivate then insert violates nothing at any point and activates the new version |
| `ConfigHistory.ActivatePlanEffect` | backend/app/routers/admin.py:148-158 | deactivate then activate violates nothing at any point and leaves the asked version active |
| `ConfigHistory.InsertFirstRaises` | backend/app/services/config_sync.py:254-269 | inserting an active row before deactivating always raises |
| `ConfigHistory.SafeKeepsOverride` | backend/app/services/config_sync.py:247-291 | safe mode never changes the active row while a db override is active |
| `ConfigHistory.YamlActiveIff` | backend/app/services/config_sync.py:213-291 | after a sync the YAML content is active exactly when it already was, or the latest YAML row differs and force or an active YAML row lets it in, or force replaces an override |
| `ConfigHistory.SyncOutcomeIs` | backend/app/services/config_sync.py:213-291 | the outcome told from the rows before: unchanged, drifted or updated |
| `ConfigHistory.SyncedRowsAre` | backend/app/services/config_sync.py:213-291 | the rows after: none added for a file already the latest YAML row, else the next version, active unless safe mode keeps an override |
| `ConfigHistory.ForceKeepsOlderYaml` | backend/app/services/config_sync.py:213-245 | a run in which force leaves an older YAML version active and reports it unchanged |
| `ConfigHistory.SecondSyncIsQuiet` | backend/app/services/config_sync.py:213-245 | a second sync issues no statement on the agent's rows and reports unchanged or drifted |
| `ConfigSync.SyncOneFails` | backend/app/services/config_sync.py:115-291 | a file can only fail on another agent's name or a second default agent, never on the configuration rows |
| `ConfigSync.SyncKeeps` | backend/app/services/config_sync.py:115-317 | a completed sync leaves every agent one active row, every file settled, agents without a file as they were but for the disabled, and no enabled agent on a YAML row without a file |
| `ConfigSync.SyncIsIdempotent` | backend/app/services/config_sync.py:115-317 | a second sync changes no table and reports nothing created or updated |
| `ConfigSync.EachFileIs` | backend/app/services/config_sync.py:84-291 | every file of a completed sync: the agent's identity, kind and status, its rows, its outcome, and the report's list it is in |
| `ConfigSync.OrphansAre` | backend/app/services/config_sync.py:293-317 | reported as orphans and disabled are exactly the agents without a file that a YAML row serves |
| `ConfigSync.RefusedIff` | backend/app/services/config_sync.py:54-113 | which files refuse a sync before anything is written, and with which error |
| `ConfigSync.ReportPartitions` | backend/app/services/config_sync.py:13-28 | the report's four lists hold each file's key exactly once, orphans are none of them |
| `ConfigSync.SafeSyncKeepsOverrides` | backend/app/services/config_sync.py:247-291 | over a whole safe sync every active override stays the active row |
| `ConfigSync.RunKeepsValid` | backend/app/services/config_sync.py:115-317 | over any sequence of syncs and admin writes, failed ones included: consecutive versions, exactly one active row per agent, rows only added, unique names, at most one default |
| `ConfigSync.CreateWrites` | backend/app/routers/admin.py:175-256 | a version is written exactly when the kind is the agent's own, is then the active one, and no other agent is touched |
| `ConfigSync.ActivationWrites` | backend/app/routers/admin.py:121-158 | activation succeeds exactly for the versions there are |
| `ConfigSync.NoSuchAgentIff` | backend/app/routers/admin.py:121-148 | the admin writers refuse exactly the agents there are not; a status change writes the status alone |
| `ConfigSync.Catalogue.SyncFiles` | backend/app/services/config_sync.py:54-326 | the loop over files and orphans equals the specified sync, and a failure leaves the tables as they were |
| `ConfigSync.Catalogue.CreateConfig` | backend/app/routers/admin.py:175-256 | statement by statement, equals the specified write |
| `ConfigSync.Catalogue.ActivateConfig` | backend/app/routers/admin.py:121-158 | statement by statement, equals the specified activation |
| `ConfigSync.Execute` | backend/app/services/config_sync.py:262-276 | statements run in turn, the first index violation stops them |
| `ScopeResolution.WinnerIsLeast` | backend/app/services/capability_service.py:78-93 | the query's pick is a candidate of least rank |
| `ScopeResolution.OrderIrrelevant` | backend/app/services/capability_service.py:78-93 | with unique scope keys the pick does not depend on row order |
| `ScopeResolution.WinnerIsFourLevel` | backend/app/services/capability_service.py:86-88 | the two CASE expressions amount to four levels, the organization's row at the default tenant second |
| `ScopeResolution.RuleHoldsIff` | backend/app/services/capability_service.py:8-20 | the documented three-level rule holds exactly unless such a row gets in front |
| `ScopeResolution.DisabledWinnerHides` | backend/app/services/capability_service.py:71-77 | the most specific row decides, and disabled it hides the key |
| `ScopeResolution.FilterFirstExposesIff` | backend/app/services/capability_service.py:71-93 | filtering before resolving would expose another row exactly where a disabled winner has an enabled rival |
| `ScopeResolution.InsertThenDelete` | backend/app/routers/admin_config.py:273-318 | inserting a row and deleting it restores the table |
| `ScopeResolution.CreateIff` | backend/app/routers/admin_config.py:121-192 | creating succeeds exactly where the scope has no row of the key, and adds that row |
| `ScopeResolution.DeleteIff` | backend/app/routers/admin_config.py:273-318 | deleting succeeds exactly where the scope has a row of the key, and takes out that one row of any table |
| `ScopeResolution.InsertReaches` | backend/app/routers/admin_config.py:121-192 | a new row changes a caller's view exactly when it is their candidate and outranks what they saw |
| `ScopeResolution.OtherTenantsUnaffected` | backend/app/routers/admin_config.py:121-192 | a tenant's row never changes another tenant's document |
| `ScopeResolution.ResolversAgreeIff` | backend/app/services/agent_registry.py:181-253 | sidebar and registry take the same configuration row exactly under the stated conditions |
| `ScopeResolution.ScopedOnlyAgentIsUnroutable` | backend/app/services/agent_registry.py:62-69 | an agent configured for one tenant only is in its sidebar and unknown to the registry |
| `HandlerCache.CachesAreTransparent` | backend/app/agents/factory.py:29-43 | after any run of turns and reloaded writes a caller is served the configuration, and a handler of the spec, that the tables alone would give |
| `HandlerCache.ServedAtDefault` | backend/app/services/agent_registry.py:62-100 | who is served at all: exactly the enabled agents with an active default-scope row, whose content a caller of no tenant or the default one gets |
| `HandlerCache.ReloadGives` | backend/app/services/agent_registry.py:42-100 | a reload is all or nothing: exactly the enabled agents' default rows under the next version, or no change if one cannot be read |
| `HandlerCache.CachedIff` | backend/app/services/agent_registry.py:202-253 | a resolution is cached exactly for a tenant's own callers whose row can be read, and below the limit nothing cached is lost |
| `HandlerCache.CachesAreBounded` | backend/app/services/agent_registry.py:179-253 | the scope cache holds at most 512 entries and the handler cache at most 65 |
| `HandlerCache.SameChecksumSameHandler` | backend/app/agents/factory.py:34-43 | equal checksums share one handler |
| `HandlerCache.ServedIsSidebars` | backend/app/services/agent_registry.py:181-253 | the served configuration is the sidebar's wherever that row is readable or the default |
| `HandlerCache.StaleReaderPoisons` | backend/app/services/agent_registry.py:202-253 | an agent read before a reload and resolved after it is cached and served to later turns exactly when the scope has no row of its own |
| `StaleReaders.AnswerIsTrueIff` | backend/app/services/agent_registry.py:181-253 | with reading, resolving and building as separate steps of many turns and reloads between: an answer is the tables' own exactly when the agent is still served and its scope has a row of its own or the deciding turn had read the row in force |
| `StaleReaders.WrongAnswersAreStale` | backend/app/services/agent_registry.py:202-253 | an answer that differs was decided by a turn that read the agent before the last reload |
| `StaleReaders.HandlerIsOfResolvedSpec` | backend/app/agents/factory.py:34-43 | stale or not, a turn's handler is built from the very spec it resolved |
| `HandlerCache.Registry.Reload` | backend/app/services/agent_registry.py:42-100 | replaces the snapshot by the default-scope rows, or keeps it if any does not parse |
| `HandlerCache.Registry.ResolveForScope` | backend/app/services/agent_registry.py:181-253 | equals the specified cached resolution |
| `HandlerCache.HandlerFactory.Build` | backend/app/agents/factory.py:34-43 | equals the specified cached build |
| `Titles.TitleRuleIff` | backend/app/services/orchestration.py:231-255 | the title is the truncated first typed text, else the first completed autostart's placeholder, else null, exactly for runs in which no empty message is typed over a placeholder |
| `Titles.BlankIsForever` | backend/app/repositories/conversations.py:176-197 | an empty message typed over a placeholder leaves an empty title for good |
| `Titles.TitleIsFinal` | backend/app/repositories/conversations.py:199-230 | a title that is not a placeholder never changes |
| `Titles.Conversation.TakeTurn` | backend/app/services/orchestration.py:245-255 | the statements of one turn extend the fold by that turn |
| `TurnLimits.WindowNeverExceedsLimit` | backend/app/services/orchestration.py:153-169 | no minute admits more turns of a conversation than the limit, whatever order their transactions began in |
| `TurnLimits.SixtySecondsHoldAtMost` | backend/app/services/orchestration.py:153-169 | any sixty seconds hold at most `limit` admitted turns |
| `TurnLimits.PassesIff` | backend/app/services/orchestration.py:153-169 | a turn passes exactly when its own and the kept messages of the sixty seconds before it are within the limit |
| `TurnLimits.MinuteApartBothPass` | backend/app/services/orchestration.py:153-169 | the window is half open: two turns exactly a minute apart do not count against each other |
| `TurnLimits.Check` | backend/app/services/orchestration.py:153-169 | the count over the table decides |
| `TurnLimits.CheckDecidesPasses` | backend/app/services/orchestration.py:153-169 | the table at that moment is the earlier kept turns' messages and the turn's own |
| `Transcript.PagesAreThePrefix` | backend/app/repositories/messages.py:109-134 | following next_seq reads each message once and in order while the log grows, is complete when there is no next page, and makes progress by the limit with every other page |
| `Transcript.DistinctAgents` | backend/app/repositories/messages.py:136-157 | the breadcrumb has no adjacent duplicates and expands back to the agents |
| `CapabilityDocument.ExactlyTheGoodOnes` | frontend/src/config/capabilitySchema.js:120-139 | the result holds exactly the well-formed visible capabilities, each once, and is their only ordering by order and declaration |
| `CapabilityDocument.ExactlyTheGoodAgents` | frontend/src/config/capabilitySchema.js:71-105 | the same for the agents of a capability |
| `CapabilityDocument.CapabilityKeptIff` | frontend/src/config/capabilitySchema.js:90-117 | when a capability is kept, and with what title, order, status, action, badge and agents, from its raw fields |
| `CapabilityDocument.AgentKeptIff` | frontend/src/config/capabilitySchema.js:47-88 | the same of an agent, from its raw fields |
| `CapabilityDocument.NormalizeIsIdempotent` | frontend/src/config/capabilitySchema.js:47-139 | normalising twice changes nothing but the declaration indices, at both levels |
| `ChatTimeline.InsertionsCommuteIff` | frontend/src/hooks/useChatMessages.js:51-68 | notices of two sessions commute exactly when at least one of the sessions has items in view |
| `ChatTimeline.InsertThenRemove` | frontend/src/hooks/useChatMessages.js:56-74 | inserting keeps the other items in order: removing the notice gives back the timeline |
| `ChatTimeline.NoticeStandsAfter` | frontend/src/hooks/useChatMessages.js:56-68 | the notice stands right after its session's last item, or at the end if there is none in view |
| `ChatTimeline.FindEnd` | frontend/src/hooks/useChatMessages.js:59-65 | the backward loop finds the session's last item |

## Left out

- Several conversations at once in `TurnProtocol`: it follows one conversation's rows, lock and log; `SessionStore` covers many conversations, one transaction at a time.
- The first message of a conversation that does not exist yet: the conversation row is there from the start.
- Router gates and prompts: which agent a turn is routed to, and whether it is an exit, is an arbitrary input.
- LLM handlers, tools and history: a handler's answer is arbitrary within `HandlerContract`, which `RemoteFlow` proves of the remote handler.
- Audit rows, and the closing of the pooled channel, in `TurnProtocol`: `SessionStore` has the first, `RemoteTurns` the second.
- TurnOutcomes.OrdinaryTurn: and the other runs there are of one connection that nobody disturbs; what others may do in between is what `TurnSafety` bounds.
- Deadlocks and lock waits in time: a statement that would wait for a row is simply not taken yet.
- The order in which a connection's statements time out, and the server's own crash: a `Crash` event aborts one transaction at any point.
- `max_turns` and the per-user limits: one comparison each.
- TurnSafety.FinalizeAtMostOnce: assumes no rollback after the call, because the bound is false without it; FinalizeCallsAccounted gives the exact account.
- MitraTurn.TurnIsDecidedByPrefix: assumes a socket that outlives the deadline; TurnIsDecided is the statement for every socket.
- TurnSafety.NoConstraintFires: the unique index on remote session ids is not modelled; it rests on Mitra never giving one id twice, which `RemoteTurns` takes as given.
- RemoteTurns.HandedMatchesIff: follows one conversation's turns; what other conversations do to the pool is arbitrary.
- Processing time in the channel: reading a frame takes none, so a frame is handled at the moment it arrives or the loop is ready.
- Channel.Authenticate: the handshake's settle loop only; opening the socket, the authenticate message and send failures are not modelled, nor is the bound on the frame queue.
- `parse` and option normalisation of frames: a frame arrives as its fields.
- The factory's call inside `acquire` takes the pool's lock for its whole duration in the source; the model makes it one step with a given result.
- Unicode whitespace: `Strip` trims ASCII whitespace.
- Sorting inside `recent_chat` is modelled as a stable sort, and the window theorems take an id-ordered log.
- YAML reading, validation, checksums: a spec is its content, and equal checksums are equal contents (a hypothesis named `Identified` in `HandlerCache`).
- Rows of other scopes in the version table: the sync and admin writers carry no scope predicate in the source (`backend/app/routers/admin.py:148-158`, `backend/app/services/config_sync.py:205-211`), so their properties are stated for agents with default-scope rows only.
- Audit rows of the configuration writers, descriptions, sort orders and timestamps: they follow the rows modelled.
- `mode="off"`, which does nothing.
- HandlerCache.CachesAreTransparent: assumes each write is followed by a successful reload and that a turn reads the agent and resolves it without a reload in between; StaleReaders has the statement without the second.
- The registry's time-to-live and change check: a reload happens or it does not.
- Display order of the capability document on the server, agents within a capability, and access rules: the frontend's ordering is modelled instead.
- Capability metadata the frontend carries through unread.
- The other reducer actions of the chat pane: maps and filters.
- HTTP, authentication, settings, logging, migrations, React components.
