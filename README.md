# SWSH link-trade bot: decision model

This project models the decision logic of the Sword/Shield link-trade bot
(`PokeTradeBot`). The bot takes a request from its routine's queue, or from the Ledy
distribution pool when no one is queued. It enters the link code and may wait at a
barrier shared with the other bots. Once it finds a partner, it checks that partner's
reputation against shared logs and a ban list. It then exchanges one or more payloads:
the requested one, a Ledy match, a clone of the partner's offer, or a folder of files.
A dump or a seed check is handled instead of an exchange. A failed attempt is requeued
once or cancelled.

Everything the bot reads from the console is passed to the model as an observation:

- A loop bounded by a count reads a stream (`nat -> T`, the i-th read).
- A wait bounded by time reads the finite sequence of reads taken before it ran out.
- The clock is an integer in milliseconds.
- `SignalAndWait` is a boolean.
- An exception that cuts an attempt short is an interruption. It names the stage it happens in (before the barrier wait, before the partner check, in the exchange, or right after the count) and its cause (a dropped connection, or a cancellation while the bot waited on the routine's token).

The protocol is defined by pure functions in `LinkProtocol`, such as `ConfirmOutcome`,
`Dumped`, `HandleClone`, `LedyOutcome`, `PayloadLoop` and `RunLinkTrade`. The bot is a
class in `TradeBot`. Its methods change the bot's fields, the shared barrier, the
shared logs, the counters and the request in place. Each method is proved to do
exactly what those functions define.

Modules:

- `TradeTypes`: the result, request-kind and exception enums; payload summaries (species, identity hash, checksum, legality, HOME tracker); 8-byte snapshots; the symbolic priority tiers.
- `TradeQueues`: the request (`TradeDetail`, with its `IsProcessing` and `IsRetry` flags), the per-routine priority queue and the Ledy pool.
- `RetryPolicy`: the requeue-once-or-cancel decision.
- `Barrier`: the shared participant count and the adaptive barrier timeout.
- `Reputation`: the tracked-user logs, the ban list and the reputation guard.
- `TrainerIds`: the 32-bit TID/SID split and the six-digit TID text.
- `LinkProtocol`: the stage-by-stage outcome of a link trade, and the trade counters.
- `TradeBot`: the bot itself.

Where the documented design and the code differ, the model follows the code:

- The barrier timeout is doubled only when exactly one round in a row has timed out. After two timeouts in a row it is back to the configured value (`DoubledOnlyAfterSingleTimeout`).
- The multi-save check registers the requester in `EncounteredUsers` even when the cooldown check has already failed.
- The partner is registered in its partner log before the multi-account check runs. A partner turned away by that check, or by the ban list, is still logged.
- In the payload loop, a missing offer makes `ReadUntilPresent(...) ?? throw` raise an exception. `PerformTrade` records that as `ExceptionInternal`, so the `offered is null` branch after it (returning `TrainerTooSlow`) is never reached.
- A Seed request succeeds as soon as an offer window opens, whether or not an offer was read.
- A MutiTrade or DeletFile request whose folder yields no payload skips the payload loop. If the read of the partner's offer before the loop (373) also found nothing, recording the untaken trade at 484 reads that missing offer and throws, so the attempt ends in `ExceptionInternal` rather than `TrainerTooSlow`.
- The trade is counted (496) before the partner's slot is read again (497). An exception on that read makes the attempt a failure after it was counted. A fresh request whose exception result is retryable is then queued again, although the partner already received the payload (`CountedTradeCanBeRequeued`).

## Model

| member | source | states |
|---|---|---|
| TradeQueues.TradeQueue.TryDequeue | SysBot.Pokemon/SWSH/BotTrade/PokeTradeBot.cs:178-179 | yields the head of the queue, with the best priority of all queued entries, or nothing when empty; the queue stays sorted |
| TradeQueues.LedyPool.TryDequeueLedy | SysBot.Pokemon/SWSH/BotTrade/PokeTradeBot.cs:180-181 | yields the first pooled request, always of kind Random, or nothing when the pool is empty |
| TradeQueues.Insert | SysBot.Pokemon/SWSH/BotTrade/PokeTradeBot.cs:216 | a requeued entry goes after every entry of the same or a better tier and before every worse one |
| TradeQueues.InsertKeepsSorted | SysBot.Pokemon/SWSH/BotTrade/PokeTradeBot.cs:216 | requeueing keeps the queue in tier order |
| TradeQueues.TradeQueue.Enqueue | SysBot.Pokemon/SWSH/BotTrade/PokeTradeBot.cs:216 | the queue becomes the stable insertion of the entry and stays sorted |
| TradeBot.PokeTradeBot.GetTradeData | SysBot.Pokemon/SWSH/BotTrade/PokeTradeBot.cs:176-183 | a queued request comes with its own priority and leaves the pool untouched; otherwise a pool request comes at TierFree, is Random, and the routine queue stays empty; with both empty the answer is (none, TierFree) |
| RetryPolicy.Classify | SysBot.Pokemon/SWSH/BotTrade/PokeTradeBot.cs:210-224 | requeue exactly when the result is retryable, the kind is not Random and the request is not a retry; the new priority is min(priority, Tier2) |
| RetryPolicy.AtMostOneRequeue | SysBot.Pokemon/SWSH/BotTrade/PokeTradeBot.cs:210-224 | over any run of failures a request is requeued at most once, and never when it is already a retry or comes from the pool |
| RetryPolicy.SecondFailureCancels | SysBot.Pokemon/SWSH/BotTrade/PokeTradeBot.cs:210-224 | a fresh request failing retryably twice is requeued once and then cancelled |
| TradeBot.PokeTradeBot.HandleAbortedTrade | SysBot.Pokemon/SWSH/BotTrade/PokeTradeBot.cs:210-224 | IsProcessing becomes false; on requeue IsRetry is set and the queue gains the entry at the Classify priority; on cancel flag and queue are unchanged |
| TradeBot.PokeTradeBot.PerformTrade | SysBot.Pokemon/SWSH/BotTrade/PokeTradeBot.cs:185-208 | the result, exception, logs, counters, request payload, lastOffered, FailedBarrier and barrier membership are those of PerformLinkCodeTrade; a successful attempt leaves the request and queue alone; any other outcome (an exception recorded as ExceptionConnection or ExceptionInternal) goes through the retry decision; a connection exception is still passed on |
| Barrier.BotBarrier.AddParticipant | SysBot.Pokemon/SWSH/BotTrade/PokeTradeBot.cs:1087-1090 | the count grows by one and the bot joins the members |
| Barrier.BotBarrier.RemoveParticipant | SysBot.Pokemon/SWSH/BotTrade/PokeTradeBot.cs:1092-1095 | the count drops by one and the bot leaves the members |
| TradeBot.PokeTradeBot.UpdateBarrier | SysBot.Pokemon/SWSH/BotTrade/PokeTradeBot.cs:1081-1097 | idempotent: no change when the flag already matches; otherwise the flag flips and the count moves by exactly +1 or -1 with this bot |
| TradeBot.CountIsWaitingBots | SysBot.Pokemon/SWSH/BotTrade/PokeTradeBot.cs:1081-1097 | the participant count equals the number of bots whose ShouldWaitAtBarrier is set |
| Barrier.RoundTimeout | SysBot.Pokemon/SWSH/BotTrade/PokeTradeBot.cs:1060-1062 | the timeout is twice the configured one exactly when FailedBarrier is 1 |
| Barrier.FailedAfterRound | SysBot.Pokemon/SWSH/BotTrade/PokeTradeBot.cs:1066-1073 | the failure counter is 0 exactly after a released round |
| Barrier.FailedIsTrailingTimeouts | SysBot.Pokemon/SWSH/BotTrade/PokeTradeBot.cs:1052-1074 | FailedBarrier is the length of the run of timed-out rounds at the end of the history |
| Barrier.DoubledOnlyAfterSingleTimeout | SysBot.Pokemon/SWSH/BotTrade/PokeTradeBot.cs:1052-1074 | the doubled timeout is used exactly when the last round timed out and the one before it did not |
| TradeBot.PokeTradeBot.WaitAtBarrierIfApplicable | SysBot.Pokemon/SWSH/BotTrade/PokeTradeBot.cs:1052-1074 | not waiting or NoSync: no wait, FailedBarrier unchanged; else the wait uses RoundTimeout, a release resets the counter, a timeout adds one and the method returns normally |
| Reputation.TrackedUserLog.TryGetPrevious | SysBot.Pokemon/SWSH/BotTrade/PokeTradeBot.cs:541 | read-only lookup of the entry for a network id |
| Reputation.TrackedUserLog.TryRegister | SysBot.Pokemon/SWSH/BotTrade/PokeTradeBot.cs:563 | returns the entry it replaces and overwrites it with the user seen now |
| Reputation.FindBanned | SysBot.Pokemon/SWSH/BotTrade/PokeTradeBot.cs:625 | finds an entry exactly when the id is on the ban list, and it is an entry for that id |
| Reputation.IncludeIfNew | SysBot.Pokemon/SWSH/BotTrade/PokeTradeBot.cs:571-572 | after adding, the id is banned; a listed id leaves the list unchanged, a new one is appended |
| Reputation.BanList.AddIfNew | SysBot.Pokemon/SWSH/BotTrade/PokeTradeBot.cs:571-572 | the list becomes IncludeIfNew of the old list |
| Reputation.CheckPartner | SysBot.Pokemon/SWSH/BotTrade/PokeTradeBot.cs:533-641 | Success exactly when there is no cooldown hit, no name change in EncounteredUsers (unless Ignore or distribution), no other requester within the expiration (unless Ignore or distribution) and no ban; every failure is SuspiciousActivity; an in-game block comes only with SuspiciousActivity, under BlockAndQuit or for a banned partner with BlockDetectedBannedUser |
| Reputation.CheckPartnerLogs | SysBot.Pokemon/SWSH/BotTrade/PokeTradeBot.cs:533-641 | the requester is registered in EncounteredUsers (not for a distribution); the partner log is untouched after a cooldown or multi-save exit and has the partner registered in every other case, rejections included; the other partner log is untouched; the ban list is unchanged or gains one entry for the partner, only under BlockAndQuit with BanIDWhenBlockingUser |
| Reputation.CheckPartnerBlocksAndBans | SysBot.Pokemon/SWSH/BotTrade/PokeTradeBot.cs:561-629 | the partner is blocked in game exactly when the multi-save check fires under BlockAndQuit, or the multi-account check fires under BlockAndQuit after no cooldown hit, or neither check nor the cooldown fired and the partner is banned with BlockDetectedBannedUser; under BlockAndQuit with BanIDWhenBlockingUser the ban list becomes IncludeIfNew with the multiple-saves entry when the multi-save check fires, and with the multiple-accounts entry when only the multi-account check fires |
| Reputation.RepeatWithinCooldownIsSuspicious | SysBot.Pokemon/SWSH/BotTrade/PokeTradeBot.cs:541-558 | a partner admitted once and met again within the cooldown is turned away |
| Reputation.SecondSaveOfRequester | SysBot.Pokemon/SWSH/BotTrade/PokeTradeBot.cs:561-590 | a requester seen under a second in-game name is turned away unless the action is Ignore |
| TradeBot.PokeTradeBot.CheckCooldownAndSaves | SysBot.Pokemon/SWSH/BotTrade/PokeTradeBot.cs:541-587 | turns the partner away exactly on a cooldown hit or when the multi-save check fires, blocks exactly on the latter under BlockAndQuit, registers the requester in EncounteredUsers (not for a distribution) and adds the multiple-saves ban entry only when blocking with BanIDWhenBlockingUser |
| TradeBot.PokeTradeBot.CheckOtherAccounts | SysBot.Pokemon/SWSH/BotTrade/PokeTradeBot.cs:592-612 | registers the partner in its partner log, turns it away and blocks exactly as MultiAccountFired says on the entry it replaced, and adds the multiple-accounts ban entry only when blocking with BanIDWhenBlockingUser; nothing else changes |
| TradeBot.PokeTradeBot.CheckPartnerReputation | SysBot.Pokemon/SWSH/BotTrade/PokeTradeBot.cs:533-641 | the answer, the in-game block and the shared logs afterwards are those of CheckPartner on the logs before |
| TrainerIds.SplitTidSid | SysBot.Pokemon/SWSH/BotTrade/PokeTradeBot.cs:505-509 | TID7 is below one million, SID7 at most 4294, and joining them gives back the 32-bit value |
| TrainerIds.SplitOfJoin | SysBot.Pokemon/SWSH/BotTrade/PokeTradeBot.cs:508-509 | any TID7 below one million with a SID7 that fits in 32 bits comes back out of the split unchanged |
| TrainerIds.DigitsRoundTrip | SysBot.Pokemon/SWSH/BotTrade/PokeTradeBot.cs:1210 | zero-padded digits of a number that fits the width read back as that number |
| TrainerIds.Tid7Text | SysBot.Pokemon/SWSH/BotTrade/PokeTradeBot.cs:1204-1212 | six decimal digits that read back as the TID7 of the split |
| TradeBot.PokeTradeBot.ConfirmCodeEntry | SysBot.Pokemon/SWSH/BotTrade/PokeTradeBot.cs:300-312 | code entry is confirmed exactly when one of the first six overworld checks succeeds (otherwise RecoverPostLinkCode) |
| LinkProtocol.FirstDecisive | SysBot.Pokemon/SWSH/BotTrade/PokeTradeBot.cs:681-697 | the first confirmation poll that ends the loop: all earlier polls change nothing |
| LinkProtocol.ConfirmOutcome | SysBot.Pokemon/SWSH/BotTrade/PokeTradeBot.cs:675-703 | Success exactly when the slot changes on a poll before which nothing happened, or nothing happened at all and the final check is not the overworld; TrainerLeft exactly when the first poll that happens finds the overworld, or nothing happened and the final check does; SuspiciousActivity exactly when that first poll is off the overworld and shifty |
| TradeBot.PokeTradeBot.ConfirmAndStartTrading | SysBot.Pokemon/SWSH/BotTrade/PokeTradeBot.cs:675-703 | at most MaxTradeConfirmTime polls, with the outcome ConfirmOutcome |
| LinkProtocol.HandleClone | SysBot.Pokemon/SWSH/BotTrade/PokeTradeBot.cs:715-764 | IllegalTrade exactly for an illegal offer; Success exactly when one of the two waits saw the offer change and a different payload now shows; otherwise TrainerTooSlow with the offer sent back; on Success the offer itself is sent back, with tracker 0 when ResetHOMETracker is set and unchanged otherwise |
| LinkProtocol.LedyOutcome | SysBot.Pokemon/SWSH/BotTrade/PokeTradeBot.cs:766-806 | TrainerRequestBad exactly for no match under LedyQuitIfNoMatch; Success exactly when there is no abuse, the match requirement holds and no shifty check fires in five; a match is what gets sent |
| LinkProtocol.LedyInjection | SysBot.Pokemon/SWSH/BotTrade/PokeTradeBot.cs:780-781 | the request's payload is replaced exactly on a non-abusive Ledy match of a Random request |
| TradeBot.PokeTradeBot.HandleRandomLedy | SysBot.Pokemon/SWSH/BotTrade/PokeTradeBot.cs:766-806 | returns LedyOutcome and writes the match into the request |
| LinkProtocol.EntityToSend | SysBot.Pokemon/SWSH/BotTrade/PokeTradeBot.cs:705-713 | Random is LedyOutcome, Clone is HandleClone, every other kind sends the staged payload with Success; an accepted offer sends IntendedPayload (the clone, the Ledy match or the staged payload) |
| TradeBot.PokeTradeBot.GetEntityToSend | SysBot.Pokemon/SWSH/BotTrade/PokeTradeBot.cs:705-713 | returns EntityToSend and updates the request only on a Ledy match |
| LinkProtocol.RoundStep | SysBot.Pokemon/SWSH/BotTrade/PokeTradeBot.cs:423-477 | a missing offer throws; otherwise the pass stops with the kind check's failure, else the confirmation's failure, else RoutineCancel when cancelled, and goes on exactly when none of these happens; a stop is always one of the pass failures; a pass that goes on sends IntendedPayload |
| LinkProtocol.PayloadLoop | SysBot.Pokemon/SWSH/BotTrade/PokeTradeBot.cs:423-477 | an empty remainder ends the loop with the payload in the slot; a stop carries one of the pass failures; only a Random request gets a Ledy payload written into it |
| LinkProtocol.PayloadLoopRunsThrough | SysBot.Pokemon/SWSH/BotTrade/PokeTradeBot.cs:423-477 | the loop completes exactly when every pass goes on, and then holds the last pass's payload |
| LinkProtocol.PayloadLoopStopsAtFirstFailure | SysBot.Pokemon/SWSH/BotTrade/PokeTradeBot.cs:423-477 | a loop that stops does so with the outcome of the first pass that did not go on, every earlier pass having gone on |
| TradeBot.PokeTradeBot.TradePayloads | SysBot.Pokemon/SWSH/BotTrade/PokeTradeBot.cs:423-477 | the loop ends as PayloadLoop defines and the request holds the last Ledy match |
| LinkProtocol.Dumped | SysBot.Pokemon/SWSH/BotTrade/PokeTradeBot.cs:834-866 | never more reports than MaxDumpsPerTrade or passes |
| LinkProtocol.DumpedReportsFreshOffers | SysBot.Pokemon/SWSH/BotTrade/PokeTradeBot.cs:834-866 | each report has species at least 1 and a valid checksum, and differs from the report before it (the first from the blank payload) |
| LinkProtocol.OffersBeforeOverworld | SysBot.Pokemon/SWSH/BotTrade/PokeTradeBot.cs:836-837 | the offers of the passes before the first overworld check that succeeds, in order |
| LinkProtocol.DumpedOffersPrecedeOverworld | SysBot.Pokemon/SWSH/BotTrade/PokeTradeBot.cs:834-866 | every report is an offer read before the loop stopped on the overworld |
| LinkProtocol.FreshOffers | SysBot.Pokemon/SWSH/BotTrade/PokeTradeBot.cs:842-845 | the fresh offers are among the offers read, never more of them |
| LinkProtocol.DumpedIsCappedFreshOffers | SysBot.Pokemon/SWSH/BotTrade/PokeTradeBot.cs:834-866 | the reports are exactly the first MaxDumpsPerTrade fresh offers among those read before the overworld: a pass whose offer is skipped lets the loop go on |
| LinkProtocol.DumpedReportsEveryFreshOffer | SysBot.Pokemon/SWSH/BotTrade/PokeTradeBot.cs:834-866 | conversely, a run of real, valid, pairwise-fresh offers with the trade open is reported in full, up to the cap |
| TradeBot.PokeTradeBot.ProcessDumpTradeAsync | SysBot.Pokemon/SWSH/BotTrade/PokeTradeBot.cs:827-876 | reports what Dumped defines; TrainerTooSlow exactly when nothing was reported, else Success with the dump counter up by one |
| LinkProtocol.CounterFor | SysBot.Pokemon/SWSH/BotTrade/PokeTradeBot.cs:656-664 | Random counts as distribution, Clone as a clone, every other kind as a trade |
| LinkProtocol.TradeCounts.Add | SysBot.Pokemon/SWSH/BotTrade/PokeTradeBot.cs:658-664 | one counter goes up by one, the others are unchanged |
| TradeBot.PokeTradeBot.UpdateCountsAndExport | SysBot.Pokemon/SWSH/BotTrade/PokeTradeBot.cs:656-673 | only the counter CounterFor names goes up by one |
| LinkProtocol.Payloads | SysBot.Pokemon/SWSH/BotTrade/PokeTradeBot.cs:387-420 | with MutiTrade or DeletFile, the payloads read from the folder; otherwise the single payload of the request |
| LinkProtocol.Exchange | SysBot.Pokemon/SWSH/BotTrade/PokeTradeBot.cs:345-499 | a socket exception is exactly ExceptionConnection; the exchange never ends in RecoverStart, RecoverPostLinkCode or NoTrainerFound, and gives no guard verdict |
| LinkProtocol.PayloadExchange | SysBot.Pokemon/SWSH/BotTrade/PokeTradeBot.cs:373-499 | the payload part of the exchange: a socket exception is exactly ExceptionConnection, and it never ends in the results of the earlier stages |
| LinkProtocol.ExchangeOutcome | SysBot.Pokemon/SWSH/BotTrade/PokeTradeBot.cs:345-499 | an exception only from an interruption or the payload loop; Success needs the box open and a changed offer slot, and comes with a counter; a counter goes up only on Success or when the attempt is cut short right after counting a payload trade, and it is the kind's counter |
| LinkProtocol.ExchangeEffects | SysBot.Pokemon/SWSH/BotTrade/PokeTradeBot.cs:345-499 | in the model, lastOffered changes only on a successful payload trade, to the final offer; dumps are counted only when something was reported; a Ledy payload is written only into a Random request |
| LinkProtocol.ExchangeStages | SysBot.Pokemon/SWSH/BotTrade/PokeTradeBot.cs:345-385 | an interruption, RecoverOpenBox exactly when the box is not open, TrainerTooSlow without an offer, the dump result (TrainerTooSlow exactly when nothing was reported) and Success for a seed check |
| LinkProtocol.ExchangePayloadOutcome | SysBot.Pokemon/SWSH/BotTrade/PokeTradeBot.cs:373-499 | the loop's exception gives ExceptionInternal, a failed pass's result is the trade's result; after a full loop TrainerTooSlow exactly when box 1 slot 1 still holds the last payload sent and some offer was read (with an empty payload list and no offer read at 373, recording the failure at 484 throws, giving ExceptionInternal); otherwise the trade is counted and succeeds unless interrupted right after the count |
| LinkProtocol.CountedExchangeTookEveryPayload | SysBot.Pokemon/SWSH/BotTrade/PokeTradeBot.cs:479-496 | a counted payload trade passed every pass and box 1 slot 1 no longer holds what the last pass meant to send |
| TradeBot.PokeTradeBot.TradeAndCount | SysBot.Pokemon/SWSH/BotTrade/PokeTradeBot.cs:373-499 | result, exception, lastOffered, counters and request payload are those of PayloadExchange |
| TradeBot.PokeTradeBot.ExchangeWithPartner | SysBot.Pokemon/SWSH/BotTrade/PokeTradeBot.cs:345-499 | result, exception, lastOffered, counters and request payload are those of Exchange |
| LinkProtocol.Guarded | SysBot.Pokemon/SWSH/BotTrade/PokeTradeBot.cs:338-499 | the guard's verdict decides: a failure is the result, a pass leads to Exchange |
| TradeBot.PokeTradeBot.GuardAndExchange | SysBot.Pokemon/SWSH/BotTrade/PokeTradeBot.cs:338-499 | result, logs, counters and lastOffered are those of Guarded |
| LinkProtocol.RunLinkTrade | SysBot.Pokemon/SWSH/BotTrade/PokeTradeBot.cs:237-499 | an interruption before the barrier gives its exception; RecoverStart exactly when the start is off the overworld; an interruption after the barrier gives its exception; RecoverPostLinkCode exactly when code entry is not confirmed; RoutineCancel when cancelled then; NoTrainerFound exactly when no partner shows; the guard runs exactly when a partner is found, and its failure is the result; a passed guard leads to Exchange |
| LinkProtocol.RunLinkTradeOutcome | SysBot.Pokemon/SWSH/BotTrade/PokeTradeBot.cs:237-499 | in the model, an exception only from an interruption or the payload loop; Success implies the guard passed and an offer was shown, and comes with a counter; a counter only on Success or when cut short right after counting a payload trade |
| LinkProtocol.RunLinkTradeEffects | SysBot.Pokemon/SWSH/BotTrade/PokeTradeBot.cs:237-499 | in the model, lastOffered is refreshed only on a successful payload trade, to the final offer; dumps are counted only when something was reported; a Ledy payload is written only into a Random request |
| TradeBot.PokeTradeBot.FindPartnerAndTrade | SysBot.Pokemon/SWSH/BotTrade/PokeTradeBot.cs:296-499 | after the barrier wait, result, exception, logs, counters, lastOffered and request payload are those of RunLinkTrade |
| TradeBot.PokeTradeBot.EnterCodeAndTrade | SysBot.Pokemon/SWSH/BotTrade/PokeTradeBot.cs:256-499 | result, exception, logs, counters, lastOffered and FailedBarrier are those of RunLinkTrade when no interruption comes before the barrier |
| TradeBot.PokeTradeBot.PerformLinkCodeTrade | SysBot.Pokemon/SWSH/BotTrade/PokeTradeBot.cs:237-499 | the barrier is updated to the request's wish first; then the result, exception and every state change are those of RunLinkTrade |
| TradeBot.CountedTradeCanBeRequeued | SysBot.Pokemon/SWSH/BotTrade/PokeTradeBot.cs:185-224 | a payload trade counted at 496 and cut short at 497 is counted and, when fresh and its exception result is retryable, requeued |
| LinkProtocol.InterruptResult | SysBot.Pokemon/SWSH/BotTrade/PokeTradeBot.cs:194-205 | a dropped connection is recorded as ExceptionConnection and any other exception, a cancellation included, as ExceptionInternal |

## Left out

- Device I/O: button presses, memory reads and writes, pointer resolution, delays, menu navigation and box writes. Each read is an observation parameter, and writes are not modelled.
- `ExitTrade`, `ExitSeedCheckTrade`, `ResetTradePosition`, `BlockUser`, the soft-ban check and unban, and the reset loop while still searching (262-265) are all menu and console I/O. Only the fact that a partner was blocked is recorded.
- `SetPkmWithSwappedIDDetails`: the clone with the partner's trainer details, its legality check and its box write need PKHeX, which is not part of this model. Only the TID/SID split it uses is modelled, and the `UseTradePartnerInfo` setting is not. The completion check (`NotTaken`) compares with the payload the model staged, so it assumes `UseTradePartnerInfo` is off. With it on, the swapped copy written at 523 has another checksum, so the check at 481 could not tell a partner who never traded.
- TrainerIds.SplitTidSid: takes the 32-bit value already decoded. The little-endian `BitConverter.ToUInt32` of the console bytes is not modelled.
- LinkProtocol.HandleClone: legality (LegalityAnalysis), identity hashes (HashByDetails) and the clone itself are opaque fields of the payload summary, because they are PKHeX computations.
- LinkProtocol.ChangedWithin: a wait is modelled by the reads taken before its timeout. Poll intervals and timings are not modelled.
- IsUserBeingShifty is virtual and returns false in this class. It is modelled as an observation stream, so overriding behaviour is covered too.
- `ShouldAttemptRetry` is not defined in this file. It is the bot's `Retryable` set of results.
- The `PokeTradePriorities` values are not defined in this file. `TierFree` and `Tier2` are symbolic constants.
- TradeQueues.LedyPool.TryDequeueLedy: the Ledy pool is not defined in this file. It is modelled as a first-in-first-out list of ready Random requests.
- The `TrackedUserLog` internals (capacity and eviction) are not defined in this file. A log is an unbounded map keyed by network id.
- TradeQueues.TradeQueue.Enqueue: the hub's queue is not defined in this file. It is modelled as a stable priority queue, so ties are served in arrival order.
- Reading, converting and deleting the folder of a multi-payload request (391-416) is file-system and PKHeX work. The model takes the list of payloads that results.
- Seed checks: the seed calculation runs in a fire-and-forget task and is not modelled. Only the result and the counter are.
- Logging, echo messages, record files, notifications (including TradeCanceled and TradeFinished), `DumpPokemon` and the stream and asset hooks have no effect on the decisions, so they are left out.
- The routine loops `MainLoop`, `InnerLoop`, `DoTrades`, `DoNothing` and `WaitForQueueStep` are not modelled. Neither are reconnection or `HardStop`. `DoTrades` sets `IsProcessing` and calls `GetTradeData` and `PerformTrade`, which are modelled.
- Surprise trades (`DoSurpriseTrades`, `PerformSurpriseTrade`) are almost entirely console I/O.
- Concurrency: `SignalAndWait` is the `released` boolean, and bots running at the same time are not modelled.
- Wall-clock time is an integer number of milliseconds. The dump loop's deadline is the number of passes made before it.
- TradeBot.PokeTradeBot.WaitAtBarrierIfApplicable: FailedBarrier is an unbounded natural, so the 32-bit overflow of the source's `int` after about 2^31 timeouts in a row is not modelled.
- Seed checks: if no offer was read, `EndSeedCheckTradeAsync` gets a null payload. With dumping enabled, `DumpPokemon` may then fail. The model treats the seed branch as ending in Success either way.
- LinkProtocol.RunLinkTrade: an interruption is placed at one of four stages. An exception inside the reputation guard (while blocking a user in game), inside the dump loop, or during a pass of the payload loop is not modelled separately. A cancellation there is modelled only where the code checks the token (320 and 472).
- LinkProtocol.RunLinkTrade: an exception thrown by the exit calls `ExitTrade`, `ExitSeedCheckTrade` or `ResetTradePosition` (258, 306, 324, 341, 347, 457, 464, 474, 485, 498) is not placed at any stage; the model returns the result those branches return.
- LinkProtocol.RunLinkTradeEffects: "lastOffered changes only on Success" holds of the model, not of the source. At 498 the trade is already counted (496) and lastOffered refreshed (497), so an exception from `ExitTrade` there records a failure with the count and the new lastOffered in place; the model places no exception at that call.
- LinkProtocol.ExchangeEffects: the same as RunLinkTradeEffects, for the exchange alone (the exception from `ExitTrade` at 498 after 496 and 497).
- TradeBot.PokeTradeBot.WaitAtBarrierIfApplicable: a cancellation inside `SignalAndWait` (1064) throws before FailedBarrier changes. The model's interruption after the barrier always applies the round's FailedAfterRound update first.
