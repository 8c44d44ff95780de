/**
 * The SWSH link-trade bot (PokeTradeBot): request dispatch, the retry policy, the
 * barrier it shares with the other bots, the reputation guard over the shared logs,
 * and the link-trade routine with its bounded loops. Console reads are observations
 * passed in; each method is proved to do what the protocol functions define.
 */
module TradeBot {
  import opened TradeTypes
  import opened TradeQueues
  import opened RetryPolicy
  import opened Barrier
  import opened Reputation
  import opened LinkProtocol

  class PokeTradeBot {
    /** Hub.BotSync.Barrier, shared by all bots. */
    const Sync: BotBarrier<PokeTradeBot>
    /** The tracked-user logs and the ban list, shared by all bots. */
    const PreviousUsers: TrackedUserLog
    const PreviousUsersDistribution: TrackedUserLog
    const EncounteredUsers: TrackedUserLog
    const BannedIDs: BanList
    /** The completed-trade counters of the trade settings. */
    const Counts: TradeCounts
    const Config: HubConfig
    /** The results for which ShouldAttemptRetry holds. */
    const Retryable: set<TradeResult>

    var ShouldWaitAtBarrier: bool
    var FailedBarrier: nat
    /** The partner slot as last seen after a completed trade (it persists between trades). */
    var lastOffered: Snapshot

    ghost predicate Valid()
      reads this, Sync, PreviousUsers, PreviousUsersDistribution, EncounteredUsers
    {
      && Sync.Valid()
      && PreviousUsers.Valid() && PreviousUsersDistribution.Valid() && EncounteredUsers.Valid()
      && PreviousUsers != PreviousUsersDistribution && PreviousUsers != EncounteredUsers
      && PreviousUsersDistribution != EncounteredUsers
      && (ShouldWaitAtBarrier <==> this in Sync.Members)
    }

    constructor (sync: BotBarrier<PokeTradeBot>, previous: TrackedUserLog, distribution: TrackedUserLog,
                 encountered: TrackedUserLog, banned: BanList, counts: TradeCounts,
                 config: HubConfig, retryable: set<TradeResult>)
      requires sync.Valid() && previous.Valid() && distribution.Valid() && encountered.Valid()
      requires previous != distribution && previous != encountered && distribution != encountered
      ensures Valid()
      ensures Sync == sync && PreviousUsers == previous && PreviousUsersDistribution == distribution
      ensures EncounteredUsers == encountered && BannedIDs == banned && Counts == counts
      ensures Config == config && Retryable == retryable
      ensures !ShouldWaitAtBarrier && FailedBarrier == 0 && lastOffered == EmptySnapshot
    {
      Sync := sync;
      PreviousUsers := previous;
      PreviousUsersDistribution := distribution;
      EncounteredUsers := encountered;
      BannedIDs := banned;
      Counts := counts;
      Config := config;
      Retryable := retryable;
      ShouldWaitAtBarrier := false;
      FailedBarrier := 0;
      lastOffered := EmptySnapshot;
    }

    function CurrentLogs(): Logs
      reads PreviousUsers, PreviousUsersDistribution, EncounteredUsers, BannedIDs
    {
      Logs(PreviousUsers.Users, PreviousUsersDistribution.Users, EncounteredUsers.Users, BannedIDs.List)
    }

    // -------------------------------------------------------------------------
    // Dispatch and retry.

    /** The next request: the routine's own queue first, then the Ledy pool at TierFree. */
    method GetTradeData(queue: TradeQueue, pool: LedyPool) returns (detail: Option<TradeDetail>, priority: nat)
      requires queue.Valid() && pool.Valid()
      modifies queue, pool
      ensures queue.Valid() && pool.Valid()
      ensures old(queue.Items) != [] ==>
                && detail == Some(old(queue.Items)[0].detail) && priority == old(queue.Items)[0].priority
                && queue.Items == old(queue.Items)[1..] && pool.Pending == old(pool.Pending)
      ensures old(queue.Items) == [] && old(pool.Pending) != [] ==>
                && detail == Some(old(pool.Pending)[0]) && priority == TierFree
                && detail.value.Type == Random && pool.Pending == old(pool.Pending)[1..] && queue.Items == []
      ensures old(queue.Items) == [] && old(pool.Pending) == [] ==>
                detail == None && priority == TierFree && queue.Items == [] && pool.Pending == []
    {
      var entry := queue.TryDequeue();
      if entry.Some? {
        return Some(entry.value.detail), entry.value.priority;
      }
      var ledy := pool.TryDequeueLedy();
      if ledy.Some? {
        return ledy, TierFree;
      }
      return None, TierFree;
    }

    /** HandleAbortedTrade: the request stops processing, and goes back to its queue
        (flagged as a retry, at no more than Tier2) or is cancelled. */
    method HandleAbortedTrade(detail: TradeDetail, queue: TradeQueue, priority: nat, result: TradeResult)
      requires queue.Valid()
      modifies detail`IsProcessing, detail`IsRetry, queue
      ensures queue.Valid()
      ensures !detail.IsProcessing
      ensures match Classify(result, detail.Type, old(detail.IsRetry), priority, Retryable)
              case Requeue(p) => detail.IsRetry && queue.Items == Insert(old(queue.Items), Entry(detail, p))
              case Cancel => detail.IsRetry == old(detail.IsRetry) && queue.Items == old(queue.Items)
    {
      detail.IsProcessing := false;
      if result in Retryable && detail.Type != Random && !detail.IsRetry {
        detail.IsRetry := true;
        queue.Enqueue(detail, Min(priority, Tier2));
      }
    }

    /** PerformTrade: one attempt; a failure goes through HandleAbortedTrade, and a
        connection failure is handed on to the caller afterwards. */
    method PerformTrade(poke: TradeDetail, queue: TradeQueue, priority: nat, obs: LinkTradeObs) returns (fault: Fault)
      requires Valid() && queue.Valid()
      modifies this, Sync, PreviousUsers, PreviousUsersDistribution, EncounteredUsers, BannedIDs, Counts
      modifies poke, queue
      ensures Valid() && queue.Valid()
      ensures var run := RunLinkTrade(poke.Type, old(poke.TradeData), poke.TrainerId, poke.DeletFile,
                                      old(lastOffered), old(CurrentLogs()), Config, obs);
              && fault == run.fault
              && lastOffered == run.lastOffered
              && CurrentLogs() == (if run.verdict.Some? then run.verdict.value.logs else old(CurrentLogs()))
              && (forall c :: Counts.Count(c) == old(Counts.Count(c)) + (if run.counter == Some(c) then 1 else 0))
              && poke.TradeData == (if run.injected.Some? then run.injected.value else old(poke.TradeData))
              && FailedBarrier ==
                   (if run.reachedBarrier && poke.IsSynchronized && Config.synchronizeBots != NoSync
                    then FailedAfterRound(old(FailedBarrier), obs.barrierReleased) else old(FailedBarrier))
              && (run.result == Success ==>
                    && queue.Items == old(queue.Items)
                    && poke.IsProcessing == old(poke.IsProcessing) && poke.IsRetry == old(poke.IsRetry))
              && (run.result != Success ==>
                    && !poke.IsProcessing
                    && match Classify(run.result, poke.Type, old(poke.IsRetry), priority, Retryable)
                       case Requeue(p) => poke.IsRetry && queue.Items == Insert(old(queue.Items), Entry(poke, p))
                       case Cancel => poke.IsRetry == old(poke.IsRetry) && queue.Items == old(queue.Items))
      ensures ShouldWaitAtBarrier == poke.IsSynchronized
      ensures old(ShouldWaitAtBarrier) == poke.IsSynchronized ==> Sync.Members == old(Sync.Members)
      ensures old(ShouldWaitAtBarrier) != poke.IsSynchronized ==>
                Sync.Members == if poke.IsSynchronized then old(Sync.Members) + {this} else old(Sync.Members) - {this}
    {
      var result;
      result, fault := PerformLinkCodeTrade(poke, obs);
      if result == Success {
        return;
      }
      HandleAbortedTrade(poke, queue, priority, result);
    }

    // -------------------------------------------------------------------------
    // The barrier.

    /** Joins or leaves the barrier when the request's wish differs from the bot's state. */
    method UpdateBarrier(shouldWait: bool)
      requires Valid()
      modifies this`ShouldWaitAtBarrier, Sync
      ensures Valid()
      ensures ShouldWaitAtBarrier == shouldWait
      ensures old(ShouldWaitAtBarrier) == shouldWait ==>
                Sync.Members == old(Sync.Members) && Sync.ParticipantCount == old(Sync.ParticipantCount)
      ensures !old(ShouldWaitAtBarrier) && shouldWait ==>
                Sync.Members == old(Sync.Members) + {this} && Sync.ParticipantCount == old(Sync.ParticipantCount) + 1
      ensures old(ShouldWaitAtBarrier) && !shouldWait ==>
                Sync.Members == old(Sync.Members) - {this} && Sync.ParticipantCount == old(Sync.ParticipantCount) - 1
    {
      if ShouldWaitAtBarrier == shouldWait {
        return;
      }
      ShouldWaitAtBarrier := shouldWait;
      if shouldWait {
        Sync.AddParticipant(this);
      } else {
        Sync.RemoveParticipant(this);
      }
    }

    /** The barrier wait: `released` is the answer of SignalAndWait; the timeout used is
        returned (None when the bot does not wait). A timeout is never fatal. */
    method WaitAtBarrierIfApplicable(released: bool) returns (timeout: Option<nat>)
      modifies this`FailedBarrier
      ensures !ShouldWaitAtBarrier || Config.synchronizeBots == NoSync ==>
                timeout == None && FailedBarrier == old(FailedBarrier)
      ensures ShouldWaitAtBarrier && Config.synchronizeBots != NoSync ==>
                && timeout == Some(RoundTimeout(old(FailedBarrier), Config.synchronizeTimeout))
                && FailedBarrier == FailedAfterRound(old(FailedBarrier), released)
    {
      if !ShouldWaitAtBarrier {
        return None;
      }
      if Config.synchronizeBots == NoSync {
        return None;
      }
      var timeoutAfter := Config.synchronizeTimeout;
      if FailedBarrier == 1 {
        timeoutAfter := timeoutAfter * 2;
      }
      timeout := Some(timeoutAfter);
      if released {
        FailedBarrier := 0;
        return;
      }
      FailedBarrier := FailedBarrier + 1;
    }

    // -------------------------------------------------------------------------
    // The reputation guard.

    /** The first half of the guard: the cooldown check on the partner log (read only),
        then the multi-save check, which registers the requester in EncounteredUsers and,
        under BlockAndQuit, blocks the partner and may ban it. */
    method CheckCooldownAndSaves(poke: TradeDetail, nid: nat, name: string, now: int)
      returns (quit: bool, blocked: bool)
      requires Valid()
      modifies EncounteredUsers, BannedIDs
      ensures Valid()
      ensures var logs := old(CurrentLogs());
              var s := Config.abuse;
              var isDistribution := poke.Type == Random;
              var multiSave := MultiSaveFired(logs, s, isDistribution, poke.TrainerId, name);
              && quit == (CooldownViolated(Lookup(PartnerLog(logs, isDistribution), nid), s.tradeCooldown, now) || multiSave)
              && blocked == (multiSave && s.tradeAbuseAction == BlockAndQuit)
              && EncounteredUsers.Users ==
                   (if isDistribution then logs.encountered
                    else logs.encountered[poke.TrainerId := TrackedUser(poke.TrainerId, name, poke.TrainerId, now)])
              && BannedIDs.List ==
                   (if blocked && s.banIDWhenBlockingUser
                    then IncludeIfNew(logs.banned, BanEntry(nid, name, MultipleSavesComment))
                    else logs.banned)
    {
      var s := Config.abuse;
      quit := false;
      blocked := false;
      var isDistribution := poke.Type == Random;
      var list := if isDistribution then PreviousUsersDistribution else PreviousUsers;

      var cooldown := list.TryGetPrevious(nid);
      if CooldownViolated(cooldown, s.tradeCooldown, now) {
        quit := true;
      }

      if !isDistribution {
        var previousEncounter := EncounteredUsers.TryRegister(poke.TrainerId, name, poke.TrainerId, now);
        if previousEncounter.Some? && previousEncounter.value.name != name {
          if s.tradeAbuseAction != Ignore {
            if s.tradeAbuseAction == BlockAndQuit {
              blocked := true;
              if s.banIDWhenBlockingUser {
                BannedIDs.AddIfNew(BanEntry(nid, name, MultipleSavesComment));
              }
            }
            quit := true;
          }
        }
      }
    }

    /** The second half of the guard, once the first let the partner through: register
        the partner in its own partner log, then the multi-account check on the entry it
        replaced, which under BlockAndQuit blocks the partner and may ban it. */
    method CheckOtherAccounts(poke: TradeDetail, nid: nat, name: string, now: int)
      returns (quit: bool, blocked: bool)
      requires Valid()
      modifies PreviousUsers, PreviousUsersDistribution, BannedIDs
      ensures Valid()
      ensures var logs := old(CurrentLogs());
              var s := Config.abuse;
              var isDistribution := poke.Type == Random;
              var multiAccount := MultiAccountFired(logs, s, isDistribution, poke.TrainerId, nid, now);
              var registered := PartnerLog(logs, isDistribution)[nid := TrackedUser(nid, name, if isDistribution then 0 else poke.TrainerId, now)];
              && quit == multiAccount
              && blocked == (multiAccount && s.tradeAbuseAction == BlockAndQuit)
              && CurrentLogs() ==
                   (if isDistribution then logs.(distribution := registered) else logs.(previous := registered))
                     .(banned := if blocked && s.banIDWhenBlockingUser
                                 then IncludeIfNew(logs.banned, BanEntry(nid, name, MultipleAccountsComment))
                                 else logs.banned)
    {
      var s := Config.abuse;
      quit := false;
      blocked := false;
      var isDistribution := poke.Type == Random;
      var list := if isDistribution then PreviousUsersDistribution else PreviousUsers;
      var previous := list.TryRegister(nid, name, if isDistribution then 0 else poke.TrainerId, now);
      if previous.Some? && previous.value.networkId == nid && previous.value.remoteId != poke.TrainerId && !isDistribution {
        if now - previous.value.time < s.tradeAbuseExpiration * MillisPerMinute && s.tradeAbuseAction != Ignore {
          if s.tradeAbuseAction == BlockAndQuit {
            blocked := true;
            if s.banIDWhenBlockingUser {
              BannedIDs.AddIfNew(BanEntry(nid, name, MultipleAccountsComment));
            }
          }
          quit := true;
        }
      }
    }

    /** CheckPartnerReputation on the shared logs: the answer, whether the partner was
        blocked in game, and the logs afterwards are those CheckPartner defines. */
    method CheckPartnerReputation(poke: TradeDetail, nid: nat, name: string, now: int)
      returns (result: TradeResult, blocked: bool)
      requires Valid()
      modifies PreviousUsers, PreviousUsersDistribution, EncounteredUsers, BannedIDs
      ensures Valid()
      ensures Verdict(result, blocked, CurrentLogs())
              == CheckPartner(old(CurrentLogs()), Config.abuse, poke.Type == Random, poke.TrainerId, nid, name, now)
    {
      var s := Config.abuse;
      var isDistribution := poke.Type == Random;
      var list := if isDistribution then PreviousUsersDistribution else PreviousUsers;
      var quit;
      quit, blocked := CheckCooldownAndSaves(poke, nid, name, now);
      assert list.Users == old(list.Users);
      if quit {
        return SuspiciousActivity, blocked;
      }

      quit, blocked := CheckOtherAccounts(poke, nid, name, now);
      if quit {
        return SuspiciousActivity, blocked;
      }

      var entry := FindBanned(BannedIDs.List, nid);
      if entry.Some? {
        return SuspiciousActivity, s.blockDetectedBannedUser;
      }
      return Success, false;
    }

    // -------------------------------------------------------------------------
    // The bounded loops of the link trade.

    /** After the code is entered: check the overworld, and press A again up to five
        times; the sixth failed check gives up (RecoverPostLinkCode). */
    method ConfirmCodeEntry(overworld: nat -> bool) returns (confirmed: bool)
      ensures confirmed == CodeEntryConfirmed(overworld)
    {
      var delayCount := 0;
      while !overworld(delayCount)
        invariant 0 <= delayCount <= MaxCodeConfirmRounds
        invariant forall j :: 0 <= j < delayCount ==> !overworld(j)
        decreases MaxCodeConfirmRounds - delayCount
      {
        if delayCount >= MaxCodeConfirmRounds {
          return false;
        }
        delayCount := delayCount + 1;
      }
      return true;
    }

    /** ConfirmAndStartTrading: `oldEC` is box 1 slot 1 before confirming, `polls` the
        checks of each iteration, `finalOverworld` the check after the last one. */
    method ConfirmAndStartTrading(oldEC: Snapshot, polls: nat -> ConfirmPoll, finalOverworld: bool)
      returns (result: TradeResult)
      ensures result == ConfirmOutcome(oldEC, polls, Config.maxTradeConfirmTime, finalOverworld)
    {
      var max := Config.maxTradeConfirmTime;
      for i := 0 to max
        invariant FirstDecisive(oldEC, polls, i, max) == FirstDecisive(oldEC, polls, 0, max)
      {
        var p := polls(i);
        if p.overworld {
          return TrainerLeft;
        }
        if p.shifty {
          return SuspiciousActivity;
        }
        if p.boxEC != oldEC {
          return Success;
        }
      }
      if finalOverworld {
        return TrainerLeft;
      }
      return Success;
    }

    /** HandleRandomLedy: `trade` is the matcher's answer for the offer and `shifty` the
        checks before each of the five presses. A match is also written into the request. */
    method HandleRandomLedy(poke: TradeDetail, toSend: Entity, trade: Option<LedyTrade>, shifty: nat -> bool)
      returns (c: Choice)
      modifies poke`TradeData
      ensures c == LedyOutcome(toSend, trade, Config.ledyQuitIfNoMatch, shifty)
      ensures poke.TradeData ==
                if trade.Some? && !trade.value.abuseDetected then trade.value.receive else old(poke.TradeData)
    {
      var sent := toSend;
      if trade.Some? {
        if trade.value.abuseDetected {
          return Choice(sent, SuspiciousActivity);
        }
        sent := trade.value.receive;
        poke.TradeData := sent;
      } else if Config.ledyQuitIfNoMatch {
        return Choice(sent, TrainerRequestBad);
      }

      for i := 0 to LedyConfirmPresses
        invariant forall j :: 0 <= j < i ==> !shifty(j)
      {
        if shifty(i) {
          return Choice(sent, SuspiciousActivity);
        }
      }
      return Choice(sent, Success);
    }

    /** GetEntityToSend: the per-kind handling of the partner's offer. */
    method GetEntityToSend(poke: TradeDetail, offered: Entity, obs: RoundObs, toSend: Entity) returns (c: Choice)
      modifies poke`TradeData
      ensures c == EntityToSend(poke.Type, Config, toSend, offered, obs)
      ensures poke.TradeData ==
                if LedyInjection(poke.Type, obs.ledy).Some? then LedyInjection(poke.Type, obs.ledy).value
                else old(poke.TradeData)
    {
      match poke.Type
      case Random =>
        c := HandleRandomLedy(poke, toSend, obs.ledy, obs.ledyShifty);
      case Clone =>
        c := HandleClone(offered, obs.offeredEC, obs.clone, Config.resetHOMETracker);
      case _ =>
        c := Choice(toSend, Success);
    }

    /** The loop over the payloads of the request (the foreach of PerformLinkCodeTrade). */
    method TradePayloads(poke: TradeDetail, payloads: seq<Entity>, rounds: nat -> RoundObs, toSend: Entity)
      returns (end: LoopEnd)
      modifies poke`TradeData
      ensures end == PayloadLoop(poke.Type, Config, payloads, rounds, 0, toSend, None)
      ensures poke.TradeData == if end.injected.Some? then end.injected.value else old(poke.TradeData)
    {
      var sent := toSend;
      var injected: Option<Entity> := None;
      for k := 0 to |payloads|
        invariant PayloadLoop(poke.Type, Config, payloads, rounds, k, sent, injected)
                  == PayloadLoop(poke.Type, Config, payloads, rounds, 0, toSend, None)
        invariant poke.TradeData == if injected.Some? then injected.value else old(poke.TradeData)
      {
        var obs := rounds(k);
        if obs.offered.None? {
          return LoopEnd(Some(Thrown), payloads[k], injected);
        }
        var c := GetEntityToSend(poke, obs.offered.value, obs, payloads[k]);
        injected := Latest(LedyInjection(poke.Type, obs.ledy), injected);
        if c.check != Success {
          return LoopEnd(Some(Stopped(c.check)), c.toSend, injected);
        }
        var confirmed := ConfirmAndStartTrading(obs.boxEC, obs.confirmPolls, obs.finalOverworld);
        if confirmed != Success {
          return LoopEnd(Some(Stopped(confirmed)), c.toSend, injected);
        }
        if obs.cancelled {
          return LoopEnd(Some(Stopped(RoutineCancel)), c.toSend, injected);
        }
        sent := c.toSend;
      }
      return LoopEnd(None, sent, injected);
    }

    /** ProcessDumpTradeAsync over the passes made before the time limit: the offers
        reported, and the result; a successful dump adds to the dump counter. */
    method ProcessDumpTradeAsync(polls: seq<DumpPoll>) returns (result: TradeResult, shown: seq<Entity>)
      modifies Counts
      ensures shown == Dumped(polls, Config.maxDumpsPerTrade, BlankHash)
      ensures result == if shown == [] then TrainerTooSlow else Success
      ensures forall c :: Counts.Count(c) == old(Counts.Count(c)) + (if c == CompletedDumps && result == Success then 1 else 0)
    {
      var max := Config.maxDumpsPerTrade;
      var ctr := 0;
      var prevHash := BlankHash;
      shown := [];
      var i := 0;
      while ctr < max && i < |polls|
        invariant 0 <= i <= |polls| && ctr == |shown| <= max
        invariant shown + Dumped(polls[i..], max - ctr, prevHash) == Dumped(polls, max, BlankHash)
        decreases |polls| - i
      {
        if polls[i].overworld {
          assert Dumped(polls[i..], max - ctr, prevHash) == [];
          break;
        }
        assert polls[i..][1..] == polls[i + 1..];
        var pk := polls[i].offer;
        if Reportable(pk, prevHash) {
          ghost var rest := Dumped(polls[i + 1..], max - ctr - 1, pk.value.hash);
          assert Dumped(polls[i..], max - ctr, prevHash) == [pk.value] + rest;
          assert shown + ([pk.value] + rest) == (shown + [pk.value]) + rest;
          prevHash := pk.value.hash;
          shown := shown + [pk.value];
          ctr := ctr + 1;
        } else {
          assert Dumped(polls[i..], max - ctr, prevHash) == Dumped(polls[i + 1..], max - ctr, prevHash);
        }
        i := i + 1;
      }
      assert Dumped(polls[i..], max - ctr, prevHash) == [];
      if ctr == 0 {
        return TrainerTooSlow, shown;
      }
      Counts.Add(CompletedDumps);
      return Success, shown;
    }

    /** UpdateCountsAndExport: the counter of the request kind goes up by one. */
    method UpdateCountsAndExport(kind: TradeType)
      modifies Counts
      ensures forall c :: Counts.Count(c) == old(Counts.Count(c)) + (if c == CounterFor(kind) then 1 else 0)
    {
      if kind == Random {
        Counts.Add(CompletedDistribution);
      } else if kind == Clone {
        Counts.Add(CompletedClones);
      } else {
        Counts.Add(CompletedTrades);
      }
    }

    // -------------------------------------------------------------------------
    // The link trade.

    /** PerformLinkCodeTrade once the partner passed the reputation guard. */
    method ExchangeWithPartner(poke: TradeDetail, obs: LinkTradeObs) returns (result: TradeResult, fault: Fault)
      modifies this`lastOffered, Counts, poke`TradeData
      ensures var run := Exchange(poke.Type, old(poke.TradeData), poke.DeletFile, old(lastOffered), Config, obs);
              && result == run.result && fault == run.fault
              && lastOffered == run.lastOffered
              && (forall c :: Counts.Count(c) == old(Counts.Count(c)) + (if run.counter == Some(c) then 1 else 0))
              && poke.TradeData == (if run.injected.Some? then run.injected.value else old(poke.TradeData))
    {
      if InterruptedAt(obs.interrupt, InExchange) {
        return InterruptResult(obs.interrupt.value), InterruptFault(obs.interrupt.value);
      }
      if !obs.inBox {
        return RecoverOpenBox, NoFault;
      }
      var tradeOffered := ChangedWithin(obs.offerWait, lastOffered);
      if !tradeOffered {
        return TrainerTooSlow, NoFault;
      }
      if poke.Type == Dump {
        var shown;
        result, shown := ProcessDumpTradeAsync(obs.dumpPolls);
        return result, NoFault;
      }
      if poke.Type == Seed {
        Counts.Add(CompletedSeedChecks);
        return Success, NoFault;
      }
      result, fault := TradeAndCount(poke, obs);
    }

    /** The payload part of the exchange: the trades, then the completion check on the
        last payload sent, the count and the refresh of the partner slot. */
    method TradeAndCount(poke: TradeDetail, obs: LinkTradeObs) returns (result: TradeResult, fault: Fault)
      modifies this`lastOffered, Counts, poke`TradeData
      ensures var run := PayloadExchange(poke.Type, old(poke.TradeData), poke.DeletFile, old(lastOffered), Config, obs);
              && result == run.result && fault == run.fault
              && lastOffered == run.lastOffered
              && (forall c :: Counts.Count(c) == old(Counts.Count(c)) + (if run.counter == Some(c) then 1 else 0))
              && poke.TradeData == (if run.injected.Some? then run.injected.value else old(poke.TradeData))
    {
      var toSend := poke.TradeData;
      var ls := Payloads(poke.Type, poke.DeletFile, toSend, obs.folderPayloads);
      var end := TradePayloads(poke, ls, obs.rounds, toSend);
      match end.halt {
        case Some(Thrown) =>
          return ExceptionInternal, OtherFault;
        case Some(Stopped(r)) =>
          return r, NoFault;
        case None =>
      }
      if NotTaken(obs.received, end.lastSent) {
        if ls == [] && !obs.firstOfferRead {
          return ExceptionInternal, OtherFault;
        }
        return TrainerTooSlow, NoFault;
      }
      UpdateCountsAndExport(poke.Type);
      if InterruptedAt(obs.interrupt, AfterCount) {
        return InterruptResult(obs.interrupt.value), InterruptFault(obs.interrupt.value);
      }
      lastOffered := obs.finalOffer;
      return Success, NoFault;
    }

    /** PerformLinkCodeTrade once a partner was found. */
    method GuardAndExchange(poke: TradeDetail, obs: LinkTradeObs) returns (result: TradeResult, fault: Fault)
      requires Valid()
      modifies this`lastOffered, PreviousUsers, PreviousUsersDistribution, EncounteredUsers, BannedIDs, Counts
      modifies poke`TradeData
      ensures Valid()
      ensures var run := Guarded(poke.Type, old(poke.TradeData), poke.TrainerId, poke.DeletFile,
                                 old(lastOffered), old(CurrentLogs()), Config, obs);
              && result == run.result && fault == run.fault
              && lastOffered == run.lastOffered
              && CurrentLogs() == run.verdict.value.logs
              && (forall c :: Counts.Count(c) == old(Counts.Count(c)) + (if run.counter == Some(c) then 1 else 0))
              && poke.TradeData == (if run.injected.Some? then run.injected.value else old(poke.TradeData))
    {
      var partnerCheck, _ := CheckPartnerReputation(poke, obs.partnerNid, obs.partnerName, obs.now);
      if partnerCheck != Success {
        return partnerCheck, NoFault;
      }
      result, fault := ExchangeWithPartner(poke, obs);
    }

    /** PerformLinkCodeTrade after the connection check: code entry, the barrier wait,
        the search for a partner, the reputation guard and the exchange. */
    method EnterCodeAndTrade(poke: TradeDetail, obs: LinkTradeObs) returns (result: TradeResult, fault: Fault)
      requires Valid() && !InterruptedAt(obs.interrupt, BeforeBarrier)
      modifies this`FailedBarrier, this`lastOffered, PreviousUsers, PreviousUsersDistribution, EncounteredUsers
      modifies BannedIDs, Counts, poke`TradeData
      ensures Valid()
      ensures var run := RunLinkTrade(poke.Type, old(poke.TradeData), poke.TrainerId, poke.DeletFile,
                                      old(lastOffered), old(CurrentLogs()), Config, obs);
              && result == run.result && fault == run.fault
              && lastOffered == run.lastOffered
              && CurrentLogs() == (if run.verdict.Some? then run.verdict.value.logs else old(CurrentLogs()))
              && (forall c :: Counts.Count(c) == old(Counts.Count(c)) + (if run.counter == Some(c) then 1 else 0))
              && poke.TradeData == (if run.injected.Some? then run.injected.value else old(poke.TradeData))
              && FailedBarrier ==
                   (if run.reachedBarrier && ShouldWaitAtBarrier && Config.synchronizeBots != NoSync
                    then FailedAfterRound(old(FailedBarrier), obs.barrierReleased) else old(FailedBarrier))
    {
      if !obs.startOnOverworld {
        return RecoverStart, NoFault;
      }
      var _ := WaitAtBarrierIfApplicable(obs.barrierReleased);
      label waited:
      assert CurrentLogs() == old(CurrentLogs()) && lastOffered == old(lastOffered);
      assert forall c :: Counts.Count(c) == old(Counts.Count(c));
      result, fault := FindPartnerAndTrade(poke, obs);
      assert forall c :: old@waited(Counts.Count(c)) == old(Counts.Count(c));
    }

    /** EnterCodeAndTrade after the barrier wait: the interruption check, the code
        confirmation, the search for a partner, then the guard and the exchange. */
    method FindPartnerAndTrade(poke: TradeDetail, obs: LinkTradeObs) returns (result: TradeResult, fault: Fault)
      requires Valid() && !InterruptedAt(obs.interrupt, BeforeBarrier) && obs.startOnOverworld
      modifies this`lastOffered, PreviousUsers, PreviousUsersDistribution, EncounteredUsers, BannedIDs, Counts
      modifies poke`TradeData
      ensures Valid()
      ensures var run := RunLinkTrade(poke.Type, old(poke.TradeData), poke.TrainerId, poke.DeletFile,
                                      old(lastOffered), old(CurrentLogs()), Config, obs);
              && result == run.result && fault == run.fault
              && lastOffered == run.lastOffered
              && CurrentLogs() == (if run.verdict.Some? then run.verdict.value.logs else old(CurrentLogs()))
              && (forall c :: Counts.Count(c) == old(Counts.Count(c)) + (if run.counter == Some(c) then 1 else 0))
              && poke.TradeData == (if run.injected.Some? then run.injected.value else old(poke.TradeData))
    {
      if InterruptedAt(obs.interrupt, BeforeGuard) {
        return InterruptResult(obs.interrupt.value), InterruptFault(obs.interrupt.value);
      }
      var confirmed := ConfirmCodeEntry(obs.codeEntryOverworld);
      if !confirmed {
        return RecoverPostLinkCode, NoFault;
      }
      var partnerFound := ChangedWithin(obs.partnerWait, obs.partnerBaseline);
      if obs.cancelled {
        return RoutineCancel, NoFault;
      }
      if !partnerFound {
        return NoTrainerFound, NoFault;
      }
      result, fault := GuardAndExchange(poke, obs);
    }

    /** PerformLinkCodeTrade: the barrier update comes first; then the result, an
        exception if one escapes, and every state change are those of RunLinkTrade. */
    method PerformLinkCodeTrade(poke: TradeDetail, obs: LinkTradeObs) returns (result: TradeResult, fault: Fault)
      requires Valid()
      modifies this, Sync, PreviousUsers, PreviousUsersDistribution, EncounteredUsers, BannedIDs, Counts
      modifies poke`TradeData
      ensures Valid()
      ensures var run := RunLinkTrade(poke.Type, old(poke.TradeData), poke.TrainerId, poke.DeletFile,
                                      old(lastOffered), old(CurrentLogs()), Config, obs);
              && result == run.result && fault == run.fault
              && lastOffered == run.lastOffered
              && CurrentLogs() == (if run.verdict.Some? then run.verdict.value.logs else old(CurrentLogs()))
              && (forall c :: Counts.Count(c) == old(Counts.Count(c)) + (if run.counter == Some(c) then 1 else 0))
              && poke.TradeData == (if run.injected.Some? then run.injected.value else old(poke.TradeData))
              && FailedBarrier ==
                   (if run.reachedBarrier && poke.IsSynchronized && Config.synchronizeBots != NoSync
                    then FailedAfterRound(old(FailedBarrier), obs.barrierReleased) else old(FailedBarrier))
      ensures ShouldWaitAtBarrier == poke.IsSynchronized
      ensures old(ShouldWaitAtBarrier) == poke.IsSynchronized ==> Sync.Members == old(Sync.Members)
      ensures old(ShouldWaitAtBarrier) != poke.IsSynchronized ==>
                Sync.Members == if poke.IsSynchronized then old(Sync.Members) + {this} else old(Sync.Members) - {this}
    {
      UpdateBarrier(poke.IsSynchronized);
      if InterruptedAt(obs.interrupt, BeforeBarrier) {
        assert RunLinkTrade(poke.Type, poke.TradeData, poke.TrainerId, poke.DeletFile, lastOffered, CurrentLogs(), Config, obs)
               == TradeRun(InterruptResult(obs.interrupt.value), InterruptFault(obs.interrupt.value),
                           false, None, None, None, lastOffered);
        return InterruptResult(obs.interrupt.value), InterruptFault(obs.interrupt.value);
      }
      label joined:
      assert CurrentLogs() == old(CurrentLogs()) && lastOffered == old(lastOffered) && FailedBarrier == old(FailedBarrier);
      assert forall c :: Counts.Count(c) == old(Counts.Count(c));
      result, fault := EnterCodeAndTrade(poke, obs);
      assert forall c :: old@joined(Counts.Count(c)) == old(Counts.Count(c));
    }
  }

  /** A payload trade that went through and was counted, but whose attempt is then cut
      short on the read of the partner's slot right after the count, still reaches the
      retry decision as a failure: a fresh request whose exception result is retryable is
      counted and queued again although the partner already took the payload. */
  lemma CountedTradeCanBeRequeued(kind: TradeType, tradeData: Entity, requester: nat, deletFile: bool,
                                  lastOffered: Snapshot, logs: Logs, cfg: HubConfig, obs: LinkTradeObs,
                                  cause: Cause, priority: nat, retryable: set<TradeResult>)
    requires kind != Random && kind != Dump && kind != Seed
    requires obs.interrupt == Some(Interrupt(AfterCount, cause))
    requires RunLinkTrade(kind, tradeData, requester, deletFile, lastOffered, logs, cfg,
                          obs.(interrupt := None)).result == Success
    requires InterruptResult(Interrupt(AfterCount, cause)) in retryable
    ensures var run := RunLinkTrade(kind, tradeData, requester, deletFile, lastOffered, logs, cfg, obs);
            && run.counter == Some(CounterFor(kind))
            && run.result == InterruptResult(Interrupt(AfterCount, cause))
            && Classify(run.result, kind, false, priority, retryable) == Requeue(Min(priority, Tier2))
  {
    var fine := obs.(interrupt := None);
    RunLinkTradeOutcome(kind, tradeData, requester, deletFile, lastOffered, logs, cfg, fine);
    var v := CheckPartner(logs, cfg.abuse, kind == Random, requester, obs.partnerNid, obs.partnerName, obs.now);
    assert PartnerFound(obs) && v.result == Success;
    ExchangePayloadOutcome(kind, tradeData, deletFile, lastOffered, cfg, fine);
    ExchangePayloadOutcome(kind, tradeData, deletFile, lastOffered, cfg, obs);
    assert RunLinkTrade(kind, tradeData, requester, deletFile, lastOffered, logs, cfg, obs)
           == Exchange(kind, tradeData, deletFile, lastOffered, cfg, obs).(verdict := Some(v));
  }

  /** With all bots sharing one barrier in a valid state, and only bots among its
      members, the participant count is the number of bots whose flag is set. */
  lemma CountIsWaitingBots(bots: set<PokeTradeBot>, sync: BotBarrier<PokeTradeBot>)
    requires sync.Valid()
    requires forall b :: b in bots ==> b.Sync == sync && (b.ShouldWaitAtBarrier <==> b in sync.Members)
    requires sync.Members <= bots
    ensures sync.ParticipantCount == |set b | b in bots && b.ShouldWaitAtBarrier|
  {
    assert sync.Members == set b | b in bots && b.ShouldWaitAtBarrier;
  }
}
