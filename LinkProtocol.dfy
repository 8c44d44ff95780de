/**
 * The link-trade protocol as decisions over what the console shows. Every read of the
 * console is an observation handed in: a loop bounded by a count reads a stream
 * (`nat -> T`, the i-th read), a wait bounded by time reads the finite sequence of
 * reads taken before the wait ran out. The functions here define the outcome of each
 * stage; the bot's methods are proved to compute them.
 */
module LinkProtocol {
  import opened TradeTypes
  import opened Reputation
  import Barrier

  /** The hub settings the trade routine reads. */
  datatype HubConfig = HubConfig(
    abuse: AbuseSettings,
    synchronizeBots: Barrier.BotSyncOption,
    synchronizeTimeout: nat,
    maxTradeConfirmTime: nat,
    maxDumpsPerTrade: nat,
    ledyQuitIfNoMatch: bool,
    resetHOMETracker: bool)

  /** A wait on a memory region (ReadUntilChanged) succeeds when one of the reads taken
      before the timeout differs from the original bytes. */
  predicate ChangedWithin(polls: seq<Bytes>, original: Bytes)
  {
    exists i :: 0 <= i < |polls| && polls[i] != original
  }

  // ---------------------------------------------------------------------------
  // Code entry: after the code is submitted the bot presses A in rounds of five until
  // the overworld shows again, and gives up after five rounds.

  const MaxCodeConfirmRounds: nat := 5

  /** `overworld(k)` is the k-th overworld check of the confirmation loop. */
  predicate CodeEntryConfirmed(overworld: nat -> bool)
  {
    exists k :: 0 <= k <= MaxCodeConfirmRounds && overworld(k)
  }

  // ---------------------------------------------------------------------------
  // ConfirmAndStartTrading: poll until box 1 slot 1 changes (the exchange started),
  // the overworld shows (the partner left) or the partner turns shifty.

  /** One poll: the overworld check, the shiftiness check, then the read of box 1 slot 1. */
  datatype ConfirmPoll = ConfirmPoll(overworld: bool, shifty: bool, boxEC: Snapshot)

  /** A poll that decides nothing: the loop goes on. */
  predicate Quiet(oldEC: Snapshot, p: ConfirmPoll)
  {
    !p.overworld && !p.shifty && p.boxEC == oldEC
  }

  /** Index of the first deciding poll at or after `i`, or `max` if none before `max`. */
  function FirstDecisive(oldEC: Snapshot, polls: nat -> ConfirmPoll, i: nat, max: nat): (k: nat)
    requires i <= max
    ensures i <= k <= max
    ensures forall j :: i <= j < k ==> Quiet(oldEC, polls(j))
    ensures k < max ==> !Quiet(oldEC, polls(k))
    decreases max - i
  {
    if i == max || !Quiet(oldEC, polls(i)) then i else FirstDecisive(oldEC, polls, i + 1, max)
  }

  /** A poll that starts the exchange: still in the trade, not shifty, slot changed. */
  predicate Started(oldEC: Snapshot, p: ConfirmPoll)
  {
    !p.overworld && !p.shifty && p.boxEC != oldEC
  }

  /** Outcome of ConfirmAndStartTrading with at most `max` polls; `finalOverworld` is the
      overworld check made once the polls ran out. */
  function ConfirmOutcome(oldEC: Snapshot, polls: nat -> ConfirmPoll, max: nat, finalOverworld: bool): (r: TradeResult)
    ensures r == Success || r == TrainerLeft || r == SuspiciousActivity
    ensures r == Success <==>
              (exists k :: 0 <= k < max && (forall j :: 0 <= j < k ==> Quiet(oldEC, polls(j))) && Started(oldEC, polls(k)))
              || ((forall j :: 0 <= j < max ==> Quiet(oldEC, polls(j))) && !finalOverworld)
    ensures r == TrainerLeft <==>
              (exists k :: 0 <= k < max && (forall j :: 0 <= j < k ==> Quiet(oldEC, polls(j))) && polls(k).overworld)
              || ((forall j :: 0 <= j < max ==> Quiet(oldEC, polls(j))) && finalOverworld)
    ensures r == SuspiciousActivity <==>
              exists k :: 0 <= k < max && (forall j :: 0 <= j < k ==> Quiet(oldEC, polls(j)))
                          && !polls(k).overworld && polls(k).shifty
  {
    var k := FirstDecisive(oldEC, polls, 0, max);
    if k < max then
      var p := polls(k);
      if p.overworld then TrainerLeft else if p.shifty then SuspiciousActivity else Success
    else if finalOverworld then TrainerLeft
    else Success
  }

  // ---------------------------------------------------------------------------
  // ProcessDumpTradeAsync: report each new offer until the cap or the deadline.

  /** One pass of the dump loop: the overworld check, then the offer read (if present). */
  datatype DumpPoll = DumpPoll(overworld: bool, offer: Option<Entity>)

  /** Identity hash of the blank payload the dump loop starts comparing against. */
  const BlankHash: nat

  /** An offer is reported when present, of a real species, with a valid checksum,
      and different from the last reported one. */
  predicate Reportable(offer: Option<Entity>, prevHash: nat)
  {
    offer.Some? && offer.value.species >= 1 && offer.value.checksumValid && offer.value.hash != prevHash
  }

  /** The offers reported by the dump loop over the passes `polls` made before the
      time limit, with at most `max` reports. */
  function Dumped(polls: seq<DumpPoll>, max: nat, prevHash: nat): (shown: seq<Entity>)
    ensures |shown| <= max && |shown| <= |polls|
  {
    if max == 0 || polls == [] || polls[0].overworld then []
    else if Reportable(polls[0].offer, prevHash) then
      [polls[0].offer.value] + Dumped(polls[1..], max - 1, polls[0].offer.value.hash)
    else
      Dumped(polls[1..], max, prevHash)
  }

  /** The offers read on the passes before the first one that finds the overworld. */
  function OffersBeforeOverworld(polls: seq<DumpPoll>): (offers: seq<Option<Entity>>)
    ensures |offers| <= |polls|
    ensures forall j :: 0 <= j < |offers| ==> offers[j] == polls[j].offer && !polls[j].overworld
    ensures |offers| < |polls| ==> polls[|offers|].overworld
  {
    if polls == [] || polls[0].overworld then [] else [polls[0].offer] + OffersBeforeOverworld(polls[1..])
  }

  /** Every reported offer is of a real species with a valid checksum, and differs from
      the one reported before it (the first one from the starting payload). */
  lemma {:induction false} DumpedReportsFreshOffers(polls: seq<DumpPoll>, max: nat, prevHash: nat)
    ensures var shown := Dumped(polls, max, prevHash);
            && (forall i :: 0 <= i < |shown| ==> shown[i].species >= 1 && shown[i].checksumValid)
            && (shown != [] ==> shown[0].hash != prevHash)
            && (forall i :: 0 < i < |shown| ==> shown[i].hash != shown[i - 1].hash)
  {
    if max == 0 || polls == [] || polls[0].overworld {
    } else {
      var next := if Reportable(polls[0].offer, prevHash) then polls[0].offer.value.hash else prevHash;
      var m := if Reportable(polls[0].offer, prevHash) then max - 1 else max;
      DumpedReportsFreshOffers(polls[1..], m, next);
      if Reportable(polls[0].offer, prevHash) {
        var shown := Dumped(polls, max, prevHash);
        var rest := Dumped(polls[1..], m, next);
        assert shown == [polls[0].offer.value] + rest;
        assert forall i :: 0 < i < |shown| ==> shown[i] == rest[i - 1];
      }
    }
  }

  /** Every reported offer was shown by the partner on a pass made before the overworld
      showed: the loop ends at the first overworld check that succeeds. */
  lemma {:induction false} DumpedOffersPrecedeOverworld(polls: seq<DumpPoll>, max: nat, prevHash: nat)
    ensures var shown := Dumped(polls, max, prevHash);
            forall i :: 0 <= i < |shown| ==> Some(shown[i]) in OffersBeforeOverworld(polls)
  {
    var offers := OffersBeforeOverworld(polls);
    var kept := FreshOffers(offers, prevHash);
    var shown := Dumped(polls, max, prevHash);
    DumpedIsCappedFreshOffers(polls, max, prevHash);
    forall i | 0 <= i < |shown|
      ensures Some(shown[i]) in offers
    {
      assert shown[i] == kept[i];
    }
  }

  /** The offers the dump loop would report without a cap: each one present, of a real
      species, with a valid checksum, and different from the last one kept. A pass whose
      offer fails any of these is skipped and the loop goes on. */
  function FreshOffers(offers: seq<Option<Entity>>, prevHash: nat): (kept: seq<Entity>)
    ensures |kept| <= |offers|
    ensures forall i :: 0 <= i < |kept| ==> Some(kept[i]) in offers
  {
    if offers == [] then []
    else
      var rest := FreshOffers(offers[1..], if Reportable(offers[0], prevHash) then offers[0].value.hash else prevHash);
      assert forall i :: 0 <= i < |rest| ==> Some(rest[i]) in offers by {
        forall i | 0 <= i < |rest| ensures Some(rest[i]) in offers {
          var j :| 0 <= j < |offers[1..]| && offers[1..][j] == Some(rest[i]);
          assert offers[j + 1] == Some(rest[i]);
        }
      }
      if Reportable(offers[0], prevHash) then [offers[0].value] + rest else rest
  }

  /** The dump loop reports exactly the first `max` fresh offers among those shown before
      the overworld: a skipped pass never ends the loop early. */
  lemma {:induction false} DumpedIsCappedFreshOffers(polls: seq<DumpPoll>, max: nat, prevHash: nat)
    ensures var kept := FreshOffers(OffersBeforeOverworld(polls), prevHash);
            Dumped(polls, max, prevHash) == kept[..Min(max, |kept|)]
  {
    var offers := OffersBeforeOverworld(polls);
    var kept := FreshOffers(offers, prevHash);
    if max == 0 || polls == [] || polls[0].overworld {
    } else {
      assert offers == [polls[0].offer] + OffersBeforeOverworld(polls[1..]);
      assert offers[1..] == OffersBeforeOverworld(polls[1..]);
      if Reportable(polls[0].offer, prevHash) {
        var next := polls[0].offer.value.hash;
        DumpedIsCappedFreshOffers(polls[1..], max - 1, next);
        var rest := FreshOffers(offers[1..], next);
        assert kept == [polls[0].offer.value] + rest;
        assert kept[..Min(max, |kept|)] == [polls[0].offer.value] + rest[..Min(max - 1, |rest|)];
      } else {
        DumpedIsCappedFreshOffers(polls[1..], max, prevHash);
        assert kept == FreshOffers(offers[1..], prevHash);
        assert Dumped(polls, max, prevHash) == Dumped(polls[1..], max, prevHash);
      }
    }
  }

  /** Conversely, when the partner keeps the trade open and shows a run of real, valid
      offers each different from the last, every one of them is reported, up to the cap. */
  lemma {:induction false} DumpedReportsEveryFreshOffer(polls: seq<DumpPoll>, max: nat, prevHash: nat)
    requires forall j :: 0 <= j < |polls| ==>
               && !polls[j].overworld && polls[j].offer.Some?
               && polls[j].offer.value.species >= 1 && polls[j].offer.value.checksumValid
    requires polls != [] ==> polls[0].offer.value.hash != prevHash
    requires forall j :: 0 < j < |polls| ==> polls[j].offer.value.hash != polls[j - 1].offer.value.hash
    ensures var shown := Dumped(polls, max, prevHash);
            && |shown| == Min(max, |polls|)
            && forall i :: 0 <= i < |shown| ==> shown[i] == polls[i].offer.value
  {
    if max != 0 && polls != [] {
      var rest := polls[1..];
      assert forall j :: 0 < j < |rest| ==> rest[j] == polls[j + 1] && rest[j - 1] == polls[j];
      DumpedReportsEveryFreshOffer(rest, max - 1, polls[0].offer.value.hash);
      var shown := Dumped(polls, max, prevHash);
      assert shown == [polls[0].offer.value] + Dumped(rest, max - 1, polls[0].offer.value.hash);
    }
  }

  // ---------------------------------------------------------------------------
  // GetEntityToSend: what goes into box 1 slot 1 for the partner.

  /** The payload to send and the verdict on the partner's offer. */
  datatype Choice = Choice(toSend: Entity, check: TradeResult)

  /** The reads of HandleClone: two waits (15 s each) for the partner to withdraw the
      offer shown, then the read of their new offer. */
  datatype CloneObs = CloneObs(firstWait: seq<Bytes>, secondWait: seq<Bytes>, replacement: Option<Entity>)

  /** HandleClone: refuse an illegal offer; otherwise give the partner two chances to
      replace it, and send back the clone only if a different payload now shows. */
  function HandleClone(offered: Entity, offeredEC: Bytes, obs: CloneObs, resetTracker: bool): (c: Choice)
    ensures c.check == Success || c.check == IllegalTrade || c.check == TrainerTooSlow
    ensures c.check == IllegalTrade <==> !offered.legal
    ensures c.check == Success <==>
              && offered.legal
              && (ChangedWithin(obs.firstWait, offeredEC) || ChangedWithin(obs.secondWait, offeredEC))
              && obs.replacement.Some? && obs.replacement.value.hash != offered.hash
    ensures c.check != Success ==> c.toSend == offered
    ensures c.check == Success ==> c.toSend == if resetTracker then offered.(tracker := 0) else offered
  {
    if !offered.legal then Choice(offered, IllegalTrade)
    else
      var clone := if resetTracker then offered.(tracker := 0) else offered;
      var partnerFound := ChangedWithin(obs.firstWait, offeredEC) || ChangedWithin(obs.secondWait, offeredEC);
      if !partnerFound || obs.replacement.None? || obs.replacement.value.hash == offered.hash then
        Choice(offered, TrainerTooSlow)
      else
        Choice(clone, Success)
  }

  /** The answer of the Ledy matcher for the partner's offer (LedyResponse). */
  datatype LedyTrade = LedyTrade(abuseDetected: bool, receive: Entity)

  /** Number of confirmation presses HandleRandomLedy makes, checking shiftiness before each. */
  const LedyConfirmPresses: nat := 5

  predicate ShiftyWithin(shifty: nat -> bool, n: nat)
  {
    exists i :: 0 <= i < n && shifty(i)
  }

  /** HandleRandomLedy: an abusive Ledy swap is suspicious; no match is a bad request when
      the settings demand a match; otherwise the matched payload (or the original one)
      goes out unless the partner turns shifty during the five presses. */
  function LedyOutcome(toSend: Entity, trade: Option<LedyTrade>, quitIfNoMatch: bool, shifty: nat -> bool): (c: Choice)
    ensures c.check == Success || c.check == SuspiciousActivity || c.check == TrainerRequestBad
    ensures c.check == TrainerRequestBad <==> trade.None? && quitIfNoMatch
    ensures c.check == Success <==>
              (trade.Some? ==> !trade.value.abuseDetected) && (trade.None? ==> !quitIfNoMatch)
              && !ShiftyWithin(shifty, LedyConfirmPresses)
    ensures c.toSend == if trade.Some? && !trade.value.abuseDetected then trade.value.receive else toSend
  {
    if trade.Some? && trade.value.abuseDetected then Choice(toSend, SuspiciousActivity)
    else if trade.None? && quitIfNoMatch then Choice(toSend, TrainerRequestBad)
    else
      var sent := if trade.Some? then trade.value.receive else toSend;
      if ShiftyWithin(shifty, LedyConfirmPresses) then Choice(sent, SuspiciousActivity) else Choice(sent, Success)
  }

  /** The payload a Ledy match writes into the request itself (poke.TradeData). */
  function LedyInjection(kind: TradeType, trade: Option<LedyTrade>): (r: Option<Entity>)
    ensures r.Some? <==> kind == Random && trade.Some? && !trade.value.abuseDetected
  {
    if kind == Random && trade.Some? && !trade.value.abuseDetected then Some(trade.value.receive) else None
  }

  /** Everything one pass of the payload loop reads. */
  datatype RoundObs = RoundObs(
    offered: Option<Entity>,       // ReadUntilPresent of the partner's offer
    offeredEC: Bytes,              // the offer's encryption constant, read right after
    ledy: Option<LedyTrade>,       // Random: the matcher's answer
    ledyShifty: nat -> bool,       // Random: shiftiness checks during the five presses
    clone: CloneObs,               // Clone: the waits for a replacement offer
    boxEC: Snapshot,               // ConfirmAndStartTrading: box 1 slot 1 before confirming
    confirmPolls: nat -> ConfirmPoll,
    finalOverworld: bool,
    cancelled: bool)               // the cancellation token after the exchange

  /** What each kind means to send once the partner's offer is accepted: a clone of the
      offer itself (HOME tracker cleared when configured), a Ledy match in place of the
      staged payload, or the staged payload unchanged. */
  function IntendedPayload(kind: TradeType, cfg: HubConfig, toSend: Entity, offered: Entity,
                           ledy: Option<LedyTrade>): Entity
  {
    match kind
    case Clone => if cfg.resetHOMETracker then offered.(tracker := 0) else offered
    case Random => if ledy.Some? && !ledy.value.abuseDetected then ledy.value.receive else toSend
    case _ => toSend
  }

  /** GetEntityToSend: dispatch on the request kind. */
  function EntityToSend(kind: TradeType, cfg: HubConfig, toSend: Entity, offered: Entity, obs: RoundObs): (c: Choice)
    ensures kind == Random ==> c == LedyOutcome(toSend, obs.ledy, cfg.ledyQuitIfNoMatch, obs.ledyShifty)
    ensures kind == Clone ==> c == HandleClone(offered, obs.offeredEC, obs.clone, cfg.resetHOMETracker)
    ensures kind != Random && kind != Clone ==> c == Choice(toSend, Success)
    ensures c.check == IllegalTrade ==> kind == Clone
    ensures c.check == TrainerRequestBad ==> kind == Random
    ensures c.check == Success ==> c.toSend == IntendedPayload(kind, cfg, toSend, offered, obs.ledy)
    ensures c.check == Success || c.check == SuspiciousActivity || c.check == TrainerRequestBad
            || c.check == IllegalTrade || c.check == TrainerTooSlow
  {
    match kind
    case Random => LedyOutcome(toSend, obs.ledy, cfg.ledyQuitIfNoMatch, obs.ledyShifty)
    case Clone => HandleClone(offered, obs.offeredEC, obs.clone, cfg.resetHOMETracker)
    case _ => Choice(toSend, Success)
  }

  // ---------------------------------------------------------------------------
  // The payload loop of PerformLinkCodeTrade: each payload is staged, checked and
  // exchanged in turn; the first failure ends the trade.

  /** Why the loop stopped early: a non-success result, or the exception thrown when no
      offer shows (InvalidOperationException). */
  datatype Halt = Stopped(result: TradeResult) | Thrown

  /** One pass: `halt` is None when the loop goes on; `sent` is the payload now in box 1
      slot 1; `inject` is a Ledy payload written into the request. */
  datatype Step = Step(halt: Option<Halt>, sent: Entity, inject: Option<Entity>)

  /** The results a pass of the payload loop can stop with. */
  predicate PassFailure(r: TradeResult)
  {
    r in {SuspiciousActivity, TrainerRequestBad, IllegalTrade, TrainerTooSlow, TrainerLeft, RoutineCancel}
  }

  /** One pass: the offer is read (none: the loop throws), the kind's handling checks it,
      the exchange is confirmed, and the cancellation token is checked; the first of
      these that fails stops the loop with its result. */
  function RoundStep(kind: TradeType, cfg: HubConfig, send: Entity, obs: RoundObs): (s: Step)
    ensures s.halt.Some? && s.halt.value.Stopped? ==> PassFailure(s.halt.value.result)
    ensures obs.offered.Some? ==>
              var c := EntityToSend(kind, cfg, send, obs.offered.value, obs);
              var confirmed := ConfirmOutcome(obs.boxEC, obs.confirmPolls, cfg.maxTradeConfirmTime, obs.finalOverworld);
              && s.sent == c.toSend
              && s.inject == LedyInjection(kind, obs.ledy)
              && (c.check != Success ==> s.halt == Some(Stopped(c.check)))
              && (c.check == Success && confirmed != Success ==> s.halt == Some(Stopped(confirmed)))
              && (c.check == Success && confirmed == Success && obs.cancelled ==> s.halt == Some(Stopped(RoutineCancel)))
    ensures s.halt == Some(Thrown) <==> obs.offered.None?
    ensures s.inject.Some? ==> kind == Random
    ensures s.halt.None? <==>
              && obs.offered.Some?
              && EntityToSend(kind, cfg, send, obs.offered.value, obs).check == Success
              && ConfirmOutcome(obs.boxEC, obs.confirmPolls, cfg.maxTradeConfirmTime, obs.finalOverworld) == Success
              && !obs.cancelled
    ensures s.halt.None? ==> s.sent == IntendedPayload(kind, cfg, send, obs.offered.value, obs.ledy)
  {
    match obs.offered
    case None => Step(Some(Thrown), send, None)
    case Some(offered) =>
      var c := EntityToSend(kind, cfg, send, offered, obs);
      var inject := LedyInjection(kind, obs.ledy);
      if c.check != Success then Step(Some(Stopped(c.check)), c.toSend, inject)
      else
        var confirmed := ConfirmOutcome(obs.boxEC, obs.confirmPolls, cfg.maxTradeConfirmTime, obs.finalOverworld);
        if confirmed != Success then Step(Some(Stopped(confirmed)), c.toSend, inject)
        else if obs.cancelled then Step(Some(Stopped(RoutineCancel)), c.toSend, inject)
        else Step(None, c.toSend, inject)
  }

  function Latest(newer: Option<Entity>, older: Option<Entity>): Option<Entity>
  {
    if newer.Some? then newer else older
  }

  /** End of the payload loop: why it stopped (None: every payload went through), the
      payload last put in box 1 slot 1, and the last Ledy payload written into the request. */
  datatype LoopEnd = LoopEnd(halt: Option<Halt>, lastSent: Entity, injected: Option<Entity>)

  /** The pass over payload j goes through without stopping the loop. */
  predicate Passes(kind: TradeType, cfg: HubConfig, payloads: seq<Entity>, rounds: nat -> RoundObs, j: nat)
    requires j < |payloads|
  {
    RoundStep(kind, cfg, payloads[j], rounds(j)).halt.None?
  }

  /** The loop over `payloads` from index k, `toSend` being in box 1 slot 1. */
  function PayloadLoop(kind: TradeType, cfg: HubConfig, payloads: seq<Entity>, rounds: nat -> RoundObs,
                       k: nat, toSend: Entity, injected: Option<Entity>): (e: LoopEnd)
    requires k <= |payloads|
    ensures k == |payloads| ==> e == LoopEnd(None, toSend, injected)
    ensures e.injected.Some? ==> kind == Random || e.injected == injected
    ensures e.halt.Some? && e.halt.value.Stopped? ==> PassFailure(e.halt.value.result)
    decreases |payloads| - k
  {
    if k == |payloads| then LoopEnd(None, toSend, injected)
    else
      var s := RoundStep(kind, cfg, payloads[k], rounds(k));
      if s.halt.Some? then LoopEnd(s.halt, s.sent, Latest(s.inject, injected))
      else PayloadLoop(kind, cfg, payloads, rounds, k + 1, s.sent, Latest(s.inject, injected))
  }

  /** The loop runs to the end exactly when every pass goes through, and then the last
      payload sent is the one of the last pass. */
  lemma {:induction false} PayloadLoopRunsThrough(kind: TradeType, cfg: HubConfig, payloads: seq<Entity>,
                                                  rounds: nat -> RoundObs, k: nat, toSend: Entity,
                                                  injected: Option<Entity>)
    requires k <= |payloads|
    ensures var e := PayloadLoop(kind, cfg, payloads, rounds, k, toSend, injected);
            && (e.halt.None? <==> forall j :: k <= j < |payloads| ==> Passes(kind, cfg, payloads, rounds, j))
            && (e.halt.None? && k < |payloads| ==>
                  e.lastSent == RoundStep(kind, cfg, payloads[|payloads| - 1], rounds(|payloads| - 1)).sent)
    decreases |payloads| - k
  {
    if k < |payloads| {
      var s := RoundStep(kind, cfg, payloads[k], rounds(k));
      var whole := PayloadLoop(kind, cfg, payloads, rounds, k, toSend, injected);
      if s.halt.None? {
        PayloadLoopRunsThrough(kind, cfg, payloads, rounds, k + 1, s.sent, Latest(s.inject, injected));
        var e := PayloadLoop(kind, cfg, payloads, rounds, k + 1, s.sent, Latest(s.inject, injected));
        assert whole == e;
        assert Passes(kind, cfg, payloads, rounds, k);
        assert (forall j :: k <= j < |payloads| ==> Passes(kind, cfg, payloads, rounds, j))
               <==> (forall j :: k + 1 <= j < |payloads| ==> Passes(kind, cfg, payloads, rounds, j));
        if k + 1 == |payloads| {
          assert e.lastSent == s.sent;
        }
      } else {
        assert whole.halt == s.halt;
        assert !Passes(kind, cfg, payloads, rounds, k);
      }
    }
  }

  /** A loop that stops does so with the outcome of the first pass that did not go
      through, every pass before it having gone through. */
  lemma {:induction false} PayloadLoopStopsAtFirstFailure(kind: TradeType, cfg: HubConfig, payloads: seq<Entity>,
                                                          rounds: nat -> RoundObs, k: nat, toSend: Entity,
                                                          injected: Option<Entity>)
    requires k <= |payloads|
    ensures var e := PayloadLoop(kind, cfg, payloads, rounds, k, toSend, injected);
            e.halt.Some? ==>
              exists j :: k <= j < |payloads|
                          && (forall i :: k <= i < j ==> Passes(kind, cfg, payloads, rounds, i))
                          && RoundStep(kind, cfg, payloads[j], rounds(j)).halt == e.halt
    decreases |payloads| - k
  {
    if k < |payloads| {
      var s := RoundStep(kind, cfg, payloads[k], rounds(k));
      var whole := PayloadLoop(kind, cfg, payloads, rounds, k, toSend, injected);
      if s.halt.None? {
        PayloadLoopStopsAtFirstFailure(kind, cfg, payloads, rounds, k + 1, s.sent, Latest(s.inject, injected));
        var e := PayloadLoop(kind, cfg, payloads, rounds, k + 1, s.sent, Latest(s.inject, injected));
        assert whole == e;
        if e.halt.Some? {
          var j :| k + 1 <= j < |payloads|
                   && (forall i :: k + 1 <= i < j ==> Passes(kind, cfg, payloads, rounds, i))
                   && RoundStep(kind, cfg, payloads[j], rounds(j)).halt == e.halt;
          assert Passes(kind, cfg, payloads, rounds, k);
          assert forall i :: k <= i < j ==> Passes(kind, cfg, payloads, rounds, i);
        }
      } else {
        assert whole.halt == s.halt;
      }
    }
  }

  // ---------------------------------------------------------------------------
  // Completed-trade counters (UpdateCountsAndExport and the dump and seed paths).

  datatype CounterKind =
    | CompletedTrades
    | CompletedDistribution
    | CompletedClones
    | CompletedDumps
    | CompletedSeedChecks

  /** The counter a completed exchange adds to. */
  function CounterFor(kind: TradeType): (c: CounterKind)
    ensures c == CompletedDistribution <==> kind == Random
    ensures c == CompletedClones <==> kind == Clone
    ensures c == CompletedTrades <==> kind != Random && kind != Clone
  {
    if kind == Random then CompletedDistribution
    else if kind == Clone then CompletedClones
    else CompletedTrades
  }

  /** The trade counters kept in the trade settings. */
  class TradeCounts {
    var Completed: map<CounterKind, nat>

    function Count(c: CounterKind): nat
      reads this
    {
      if c in Completed then Completed[c] else 0
    }

    constructor ()
      ensures forall c :: Count(c) == 0
    {
      Completed := map[];
    }

    method Add(c: CounterKind)
      modifies this
      ensures Count(c) == old(Count(c)) + 1
      ensures forall d :: d != c ==> Count(d) == old(Count(d))
    {
      Completed := Completed[c := Count(c) + 1];
    }
  }

  // ---------------------------------------------------------------------------
  // PerformLinkCodeTrade as a whole.

  /** Where an attempt is cut short by an exception from a device call or a delay. */
  datatype Stage =
    | BeforeBarrier   // from the connection check up to the barrier wait
    | BeforeGuard     // after the barrier wait, before the partner is checked
    | InExchange      // after the partner passed the guard, before anything is traded
    | AfterCount      // the read of the partner's slot right after the trade was counted

  /** Why: the connection dropped (SocketException), or the routine was cancelled
      while the bot waited on the token (OperationCanceledException). */
  datatype Cause = ConnectionLost | Cancelled

  datatype Interrupt = Interrupt(stage: Stage, cause: Cause)

  /** The exception an interruption raises, and the result PerformTrade records for it. */
  function InterruptFault(i: Interrupt): (f: Fault)
    ensures f != NoFault
  {
    if i.cause.ConnectionLost? then SocketFault else OtherFault
  }

  function InterruptResult(i: Interrupt): (r: TradeResult)
    ensures r == ExceptionConnection <==> i.cause.ConnectionLost?
    ensures r == ExceptionInternal <==> i.cause.Cancelled?
  {
    if i.cause.ConnectionLost? then ExceptionConnection else ExceptionInternal
  }

  predicate InterruptedAt(interrupt: Option<Interrupt>, stage: Stage)
  {
    interrupt.Some? && interrupt.value.stage == stage
  }

  /** Everything PerformLinkCodeTrade reads from the console and the clock. */
  datatype LinkTradeObs = LinkTradeObs(
    interrupt: Option<Interrupt>,     // an exception cutting the attempt short, if any
    startOnOverworld: bool,
    barrierReleased: bool,            // result of SignalAndWait
    codeEntryOverworld: nat -> bool,  // overworld checks of the code-entry confirmation loop
    partnerBaseline: Bytes,           // WaitForTradePartnerOffer: the slot before the wait
    partnerWait: seq<Bytes>,          //   and the reads during it
    cancelled: bool,                  // the cancellation token after the search
    partnerName: string,
    partnerNid: nat,
    now: int,                         // the clock, in milliseconds
    inBox: bool,
    offerWait: seq<Bytes>,            // reads of the partner's slot, compared to lastOffered
    firstOfferRead: bool,             // the wait for the partner's offer before the loop found one
    dumpPolls: seq<DumpPoll>,         // Dump: the passes made before MaxDumpTradeTime
    folderPayloads: seq<Entity>,      // the payloads parsed from the request's folder
    rounds: nat -> RoundObs,          // one record per pass of the payload loop
    received: Entity,                 // box 1 slot 1 after the loop
    finalOffer: Snapshot)             // the partner's slot after a completed trade

  /** What one attempt produces: the result (for an exception, the result PerformTrade
      records for it), the exception, whether the barrier stage was reached, the verdict
      of the reputation guard if it ran, a Ledy payload written into the request, the
      counter that went up, and the remembered partner offer afterwards. */
  datatype TradeRun = TradeRun(
    result: TradeResult,
    fault: Fault,
    reachedBarrier: bool,
    verdict: Option<Verdict>,
    injected: Option<Entity>,
    counter: Option<CounterKind>,
    lastOffered: Snapshot)

  /** The payloads one request exchanges. */
  function Payloads(kind: TradeType, deletFile: bool, tradeData: Entity, folder: seq<Entity>): (ls: seq<Entity>)
    ensures kind != MutiTrade && !deletFile ==> ls == [tradeData]
    ensures kind == MutiTrade || deletFile ==> ls == folder
  {
    if kind == MutiTrade || deletFile then folder else [tradeData]
  }

  /** The completion check: box 1 slot 1 still holds the payload that was put there
      (same identity hash and checksum), so the partner never took it. */
  predicate NotTaken(received: Entity, sent: Entity)
  {
    received.hash == sent.hash && received.checksum == sent.checksum
  }

  /** The payload the last pass of the loop meant to send for the offer it read (the
      staged payload when the list is empty or no offer was read). */
  function LastIntended(kind: TradeType, cfg: HubConfig, payloads: seq<Entity>, rounds: nat -> RoundObs,
                        tradeData: Entity): Entity
  {
    if payloads == [] then tradeData
    else
      var last := |payloads| - 1;
      match rounds(last).offered
      case Some(offered) => IntendedPayload(kind, cfg, payloads[last], offered, rounds(last).ledy)
      case None => payloads[last]
  }

  /** Past the guard, the box open and an offer window seen. */
  predicate OfferShown(lastOffered: Snapshot, obs: LinkTradeObs)
  {
    !InterruptedAt(obs.interrupt, InExchange) && obs.inBox && ChangedWithin(obs.offerWait, lastOffered)
  }

  /** The link trade once the partner passed the reputation guard: the box check, the
      wait for an offer, then the dump loop, the seed check or the payload loop with
      the final completion check. */
  function Exchange(kind: TradeType, tradeData: Entity, deletFile: bool, lastOffered: Snapshot,
                    cfg: HubConfig, obs: LinkTradeObs): (run: TradeRun)
    ensures run.reachedBarrier && run.verdict.None?
    ensures run.fault == SocketFault <==> run.result == ExceptionConnection
    ensures run.result != RecoverStart && run.result != RecoverPostLinkCode && run.result != NoTrainerFound
  {
    if InterruptedAt(obs.interrupt, InExchange) then
      TradeRun(InterruptResult(obs.interrupt.value), InterruptFault(obs.interrupt.value), true, None, None, None, lastOffered)
    else if !obs.inBox then
      TradeRun(RecoverOpenBox, NoFault, true, None, None, None, lastOffered)
    else if !ChangedWithin(obs.offerWait, lastOffered) then
      TradeRun(TrainerTooSlow, NoFault, true, None, None, None, lastOffered)
    else if kind == Dump then
      if Dumped(obs.dumpPolls, cfg.maxDumpsPerTrade, BlankHash) == [] then
        TradeRun(TrainerTooSlow, NoFault, true, None, None, None, lastOffered)
      else
        TradeRun(Success, NoFault, true, None, None, Some(CompletedDumps), lastOffered)
    else if kind == Seed then
      TradeRun(Success, NoFault, true, None, None, Some(CompletedSeedChecks), lastOffered)
    else
      PayloadExchange(kind, tradeData, deletFile, lastOffered, cfg, obs)
  }

  /** The exchange of a payload request once an offer was seen: the payload loop, then
      the completion check on the last payload sent, the count and the refresh of the
      partner slot. */
  function PayloadExchange(kind: TradeType, tradeData: Entity, deletFile: bool, lastOffered: Snapshot,
                           cfg: HubConfig, obs: LinkTradeObs): (run: TradeRun)
    ensures run.reachedBarrier && run.verdict.None?
    ensures run.fault == SocketFault <==> run.result == ExceptionConnection
    ensures run.result != RecoverStart && run.result != RecoverPostLinkCode && run.result != NoTrainerFound
  {
    var payloads := Payloads(kind, deletFile, tradeData, obs.folderPayloads);
    var e := PayloadLoop(kind, cfg, payloads, obs.rounds, 0, tradeData, None);
    match e.halt
    case Some(Thrown) =>
      TradeRun(ExceptionInternal, OtherFault, true, None, e.injected, None, lastOffered)
    case Some(Stopped(r)) =>
      TradeRun(r, NoFault, true, None, e.injected, None, lastOffered)
    case None =>
      if NotTaken(obs.received, e.lastSent) then
        if payloads == [] && !obs.firstOfferRead then
          // the record of the untaken trade reads the offer, which is null here
          TradeRun(ExceptionInternal, OtherFault, true, None, e.injected, None, lastOffered)
        else
          TradeRun(TrainerTooSlow, NoFault, true, None, e.injected, None, lastOffered)
      else if InterruptedAt(obs.interrupt, AfterCount) then
        TradeRun(InterruptResult(obs.interrupt.value), InterruptFault(obs.interrupt.value), true, None,
                 e.injected, Some(CounterFor(kind)), lastOffered)
      else
        TradeRun(Success, NoFault, true, None, e.injected, Some(CounterFor(kind)), obs.finalOffer)
  }

  /** What the exchange can end in: an exception only from an interruption or the
      payload loop; Success only with an offer shown, and always counted; a counter only
      on Success or when cut short right after counting a payload trade, and then the
      counter of the request's kind. */
  lemma ExchangeOutcome(kind: TradeType, tradeData: Entity, deletFile: bool, lastOffered: Snapshot,
                        cfg: HubConfig, obs: LinkTradeObs)
    ensures var run := Exchange(kind, tradeData, deletFile, lastOffered, cfg, obs);
            && (run.fault != NoFault ==> obs.interrupt.Some? || run.result == ExceptionInternal)
            && (run.result == Success ==> run.fault == NoFault && run.counter.Some? && OfferShown(lastOffered, obs))
            && (run.counter.Some? ==>
                  run.result == Success
                  || (InterruptedAt(obs.interrupt, AfterCount) && run.result == InterruptResult(obs.interrupt.value)
                      && kind != Dump && kind != Seed))
            && (kind == Seed && run.counter.Some? ==> run.counter == Some(CompletedSeedChecks))
            && (kind != Dump && kind != Seed && run.counter.Some? ==> run.counter == Some(CounterFor(kind)))
  {
    if InterruptedAt(obs.interrupt, InExchange) {
    } else if !obs.inBox {
    } else if !ChangedWithin(obs.offerWait, lastOffered) {
    } else if kind == Dump {
    } else if kind == Seed {
    } else {
      assert Exchange(kind, tradeData, deletFile, lastOffered, cfg, obs)
             == PayloadExchange(kind, tradeData, deletFile, lastOffered, cfg, obs);
      var payloads := Payloads(kind, deletFile, tradeData, obs.folderPayloads);
      var e := PayloadLoop(kind, cfg, payloads, obs.rounds, 0, tradeData, None);
      if e.halt.Some? {
      } else if NotTaken(obs.received, e.lastSent) {
      } else if InterruptedAt(obs.interrupt, AfterCount) {
      }
    }
  }

  /** What the exchange leaves behind: lastOffered refreshed only by a successful
      payload trade, to the partner's final offer; a dump counted only when something
      was shown; a Ledy payload written only into a Random request. */
  lemma ExchangeEffects(kind: TradeType, tradeData: Entity, deletFile: bool, lastOffered: Snapshot,
                        cfg: HubConfig, obs: LinkTradeObs)
    ensures var run := Exchange(kind, tradeData, deletFile, lastOffered, cfg, obs);
            && (run.injected.Some? ==> kind == Random)
            && (run.lastOffered != lastOffered ==> run.result == Success && kind != Dump && kind != Seed)
            && (run.result == Success && kind != Dump && kind != Seed ==> run.lastOffered == obs.finalOffer)
            && (kind == Dump && run.counter.Some? ==>
                  run.counter == Some(CompletedDumps) && Dumped(obs.dumpPolls, cfg.maxDumpsPerTrade, BlankHash) != [])
  {
    if InterruptedAt(obs.interrupt, InExchange) {
    } else if !obs.inBox {
    } else if !ChangedWithin(obs.offerWait, lastOffered) {
    } else if kind == Dump {
    } else if kind == Seed {
    } else {
      assert Exchange(kind, tradeData, deletFile, lastOffered, cfg, obs)
             == PayloadExchange(kind, tradeData, deletFile, lastOffered, cfg, obs);
      var payloads := Payloads(kind, deletFile, tradeData, obs.folderPayloads);
      var e := PayloadLoop(kind, cfg, payloads, obs.rounds, 0, tradeData, None);
      if e.halt.Some? {
      } else if NotTaken(obs.received, e.lastSent) {
      } else if InterruptedAt(obs.interrupt, AfterCount) {
      }
    }
  }

  /** The result of each stage of the exchange: an interruption, the box check, the wait
      for an offer, the dump or seed branch, and for the other kinds the payload loop's
      stop (its exception, or the result of the pass that failed) and the completion check. */
  lemma ExchangeStages(kind: TradeType, tradeData: Entity, deletFile: bool, lastOffered: Snapshot,
                       cfg: HubConfig, obs: LinkTradeObs)
    ensures var run := Exchange(kind, tradeData, deletFile, lastOffered, cfg, obs);
            && (InterruptedAt(obs.interrupt, InExchange) ==>
                  && run.result == InterruptResult(obs.interrupt.value) && run.fault == InterruptFault(obs.interrupt.value)
                  && run.counter.None? && run.injected.None?)
            && (!InterruptedAt(obs.interrupt, InExchange) ==> (run.result == RecoverOpenBox <==> !obs.inBox))
            && (!InterruptedAt(obs.interrupt, InExchange) && obs.inBox && !ChangedWithin(obs.offerWait, lastOffered) ==>
                  run.result == TrainerTooSlow)
            && (OfferShown(lastOffered, obs) && kind == Dump ==>
                  run.result == if Dumped(obs.dumpPolls, cfg.maxDumpsPerTrade, BlankHash) == [] then TrainerTooSlow else Success)
            && (OfferShown(lastOffered, obs) && kind == Seed ==> run.result == Success)
  {
    if InterruptedAt(obs.interrupt, InExchange) {
    } else if !obs.inBox {
    } else if !ChangedWithin(obs.offerWait, lastOffered) {
    } else if kind == Dump {
    } else if kind == Seed {
    } else {
      assert Exchange(kind, tradeData, deletFile, lastOffered, cfg, obs)
             == PayloadExchange(kind, tradeData, deletFile, lastOffered, cfg, obs);
      var payloads := Payloads(kind, deletFile, tradeData, obs.folderPayloads);
      var e := PayloadLoop(kind, cfg, payloads, obs.rounds, 0, tradeData, None);
      if e.halt.Some? {
      } else if NotTaken(obs.received, e.lastSent) {
      } else if InterruptedAt(obs.interrupt, AfterCount) {
      }
    }
  }

  /** For the kinds that trade payloads: the loop's exception becomes ExceptionInternal,
      a failed pass's result is the trade's result, and after a full loop the trade
      fails as TrainerTooSlow exactly when box 1 slot 1 still holds the last payload sent
      (with an empty list and no offer read, recording that failure throws instead);
      otherwise it is counted, and succeeds unless interrupted right after the count. */
  lemma ExchangePayloadOutcome(kind: TradeType, tradeData: Entity, deletFile: bool, lastOffered: Snapshot,
                               cfg: HubConfig, obs: LinkTradeObs)
    requires OfferShown(lastOffered, obs) && kind != Dump && kind != Seed
    ensures var run := Exchange(kind, tradeData, deletFile, lastOffered, cfg, obs);
            var payloads := Payloads(kind, deletFile, tradeData, obs.folderPayloads);
            var e := PayloadLoop(kind, cfg, payloads, obs.rounds, 0, tradeData, None);
            && run.injected == e.injected
            && (e.halt.Some? ==> run.counter.None?)
            && (e.halt == Some(Thrown) ==> run.result == ExceptionInternal && run.fault == OtherFault)
            && (e.halt.Some? && e.halt.value.Stopped? ==> run.result == e.halt.value.result)
            && (e.halt.None? ==>
                  (run.result == TrainerTooSlow <==>
                     NotTaken(obs.received, e.lastSent) && (payloads != [] || obs.firstOfferRead)))
            && (e.halt.None? && NotTaken(obs.received, e.lastSent) && payloads == [] && !obs.firstOfferRead ==>
                  run.result == ExceptionInternal && run.fault == OtherFault && run.counter.None?)
            && (e.halt.None? && !NotTaken(obs.received, e.lastSent) ==>
                  && run.counter == Some(CounterFor(kind))
                  && run.result == if InterruptedAt(obs.interrupt, AfterCount)
                                   then InterruptResult(obs.interrupt.value) else Success)
  {
    assert Exchange(kind, tradeData, deletFile, lastOffered, cfg, obs)
           == PayloadExchange(kind, tradeData, deletFile, lastOffered, cfg, obs);
  }

  /** A payload trade is counted only when every pass went through and box 1 slot 1 no
      longer holds the payload the last pass meant to send. */
  lemma {:induction false} CountedExchangeTookEveryPayload(kind: TradeType, tradeData: Entity, deletFile: bool,
                                                           lastOffered: Snapshot, cfg: HubConfig, obs: LinkTradeObs)
    requires kind != Dump && kind != Seed
    requires Exchange(kind, tradeData, deletFile, lastOffered, cfg, obs).counter.Some?
    ensures var payloads := Payloads(kind, deletFile, tradeData, obs.folderPayloads);
            && (forall j :: 0 <= j < |payloads| ==> Passes(kind, cfg, payloads, obs.rounds, j))
            && !NotTaken(obs.received, LastIntended(kind, cfg, payloads, obs.rounds, tradeData))
  {
    ExchangeStages(kind, tradeData, deletFile, lastOffered, cfg, obs);
    assert OfferShown(lastOffered, obs);
    ExchangePayloadOutcome(kind, tradeData, deletFile, lastOffered, cfg, obs);
    var payloads := Payloads(kind, deletFile, tradeData, obs.folderPayloads);
    var e := PayloadLoop(kind, cfg, payloads, obs.rounds, 0, tradeData, None);
    PayloadLoopRunsThrough(kind, cfg, payloads, obs.rounds, 0, tradeData, None);
    assert e.halt.None?;
    assert !NotTaken(obs.received, e.lastSent);
    if payloads != [] {
      var last := |payloads| - 1;
      assert Passes(kind, cfg, payloads, obs.rounds, last);
      assert e.lastSent == RoundStep(kind, cfg, payloads[last], obs.rounds(last)).sent;
    }
  }

  /** The link trade once a partner was found: the reputation guard, then the exchange. */
  function Guarded(kind: TradeType, tradeData: Entity, requester: nat, deletFile: bool,
                   lastOffered: Snapshot, logs: Logs, cfg: HubConfig, obs: LinkTradeObs): (run: TradeRun)
    ensures run.reachedBarrier
    ensures run.verdict == Some(CheckPartner(logs, cfg.abuse, kind == Random, requester,
                                             obs.partnerNid, obs.partnerName, obs.now))
    ensures run.verdict.value.result != Success ==>
              run == TradeRun(run.verdict.value.result, NoFault, true, run.verdict, None, None, lastOffered)
    ensures run.verdict.value.result == Success ==>
              run == Exchange(kind, tradeData, deletFile, lastOffered, cfg, obs).(verdict := run.verdict)
  {
    var v := CheckPartner(logs, cfg.abuse, kind == Random, requester, obs.partnerNid, obs.partnerName, obs.now);
    if v.result != Success then
      TradeRun(v.result, NoFault, true, Some(v), None, None, lastOffered)
    else
      Exchange(kind, tradeData, deletFile, lastOffered, cfg, obs).(verdict := Some(v))
  }

  /** A partner was found: not interrupted, the code entry confirmed, the routine not
      cancelled, and the partner's slot changed during the search. */
  predicate PartnerFound(obs: LinkTradeObs)
  {
    && !InterruptedAt(obs.interrupt, BeforeGuard)
    && CodeEntryConfirmed(obs.codeEntryOverworld) && !obs.cancelled
    && ChangedWithin(obs.partnerWait, obs.partnerBaseline)
  }

  /** PerformLinkCodeTrade from the barrier update to the end. */
  function RunLinkTrade(kind: TradeType, tradeData: Entity, requester: nat, deletFile: bool,
                        lastOffered: Snapshot, logs: Logs, cfg: HubConfig, obs: LinkTradeObs): (run: TradeRun)
    ensures run.fault == SocketFault <==> run.result == ExceptionConnection
    ensures InterruptedAt(obs.interrupt, BeforeBarrier) ==>
              run.result == InterruptResult(obs.interrupt.value) && run.fault == InterruptFault(obs.interrupt.value)
    ensures run.reachedBarrier <==> !InterruptedAt(obs.interrupt, BeforeBarrier) && obs.startOnOverworld
    ensures run.result == RecoverStart <==> !InterruptedAt(obs.interrupt, BeforeBarrier) && !obs.startOnOverworld
    ensures run.reachedBarrier && InterruptedAt(obs.interrupt, BeforeGuard) ==>
              run.result == InterruptResult(obs.interrupt.value) && run.fault == InterruptFault(obs.interrupt.value)
    ensures run.result == RecoverPostLinkCode <==>
              run.reachedBarrier && !InterruptedAt(obs.interrupt, BeforeGuard) && !CodeEntryConfirmed(obs.codeEntryOverworld)
    ensures (run.reachedBarrier && !InterruptedAt(obs.interrupt, BeforeGuard) && CodeEntryConfirmed(obs.codeEntryOverworld)
             && obs.cancelled) ==> run.result == RoutineCancel
    ensures run.result == NoTrainerFound <==>
              && run.reachedBarrier && !InterruptedAt(obs.interrupt, BeforeGuard)
              && CodeEntryConfirmed(obs.codeEntryOverworld) && !obs.cancelled
              && !ChangedWithin(obs.partnerWait, obs.partnerBaseline)
    ensures run.verdict.Some? <==> run.reachedBarrier && PartnerFound(obs)
    ensures run.verdict.Some? ==>
              run.verdict.value == CheckPartner(logs, cfg.abuse, kind == Random, requester,
                                                obs.partnerNid, obs.partnerName, obs.now)
    ensures run.verdict.Some? && run.verdict.value.result != Success ==>
              run.result == run.verdict.value.result && run.counter.None? && run.lastOffered == lastOffered
    ensures run.verdict.Some? && run.verdict.value.result == Success ==>
              run == Exchange(kind, tradeData, deletFile, lastOffered, cfg, obs).(verdict := run.verdict)
  {
    if InterruptedAt(obs.interrupt, BeforeBarrier) then
      TradeRun(InterruptResult(obs.interrupt.value), InterruptFault(obs.interrupt.value), false, None, None, None, lastOffered)
    else if !obs.startOnOverworld then
      TradeRun(RecoverStart, NoFault, false, None, None, None, lastOffered)
    else if InterruptedAt(obs.interrupt, BeforeGuard) then
      TradeRun(InterruptResult(obs.interrupt.value), InterruptFault(obs.interrupt.value), true, None, None, None, lastOffered)
    else if !CodeEntryConfirmed(obs.codeEntryOverworld) then
      TradeRun(RecoverPostLinkCode, NoFault, true, None, None, None, lastOffered)
    else if obs.cancelled then
      TradeRun(RoutineCancel, NoFault, true, None, None, None, lastOffered)
    else if !ChangedWithin(obs.partnerWait, obs.partnerBaseline) then
      TradeRun(NoTrainerFound, NoFault, true, None, None, None, lastOffered)
    else
      Guarded(kind, tradeData, requester, deletFile, lastOffered, logs, cfg, obs)
  }

  /** What a whole attempt can end in: an exception only from an interruption or the
      payload loop; Success only past the guard with an offer shown, and always counted;
      a counter only on Success or when cut short right after counting a payload trade. */
  lemma RunLinkTradeOutcome(kind: TradeType, tradeData: Entity, requester: nat, deletFile: bool,
                            lastOffered: Snapshot, logs: Logs, cfg: HubConfig, obs: LinkTradeObs)
    ensures var run := RunLinkTrade(kind, tradeData, requester, deletFile, lastOffered, logs, cfg, obs);
            && (run.fault != NoFault ==> obs.interrupt.Some? || run.result == ExceptionInternal)
            && (run.result == Success ==>
                  run.fault == NoFault && run.verdict.Some? && run.verdict.value.result == Success
                  && OfferShown(lastOffered, obs))
            && (run.result == Success ==> run.counter.Some?)
            && (run.counter.Some? ==>
                  run.result == Success
                  || (InterruptedAt(obs.interrupt, AfterCount) && run.result == InterruptResult(obs.interrupt.value)
                      && kind != Dump && kind != Seed))
  {
    var run := RunLinkTrade(kind, tradeData, requester, deletFile, lastOffered, logs, cfg, obs);
    if InterruptedAt(obs.interrupt, BeforeBarrier) || !obs.startOnOverworld || !PartnerFound(obs) {
      assert run.counter.None? && run.result != Success && (run.fault != NoFault ==> obs.interrupt.Some?);
    } else {
      var v := CheckPartner(logs, cfg.abuse, kind == Random, requester, obs.partnerNid, obs.partnerName, obs.now);
      if v.result == Success {
        ExchangeOutcome(kind, tradeData, deletFile, lastOffered, cfg, obs);
        assert run == Exchange(kind, tradeData, deletFile, lastOffered, cfg, obs).(verdict := Some(v));
      } else {
        assert run == TradeRun(v.result, NoFault, true, Some(v), None, None, lastOffered);
      }
    }
  }

  /** What a whole attempt leaves behind: lastOffered refreshed only by a successful
      payload trade, to the partner's final offer; a dump counted only when something
      was shown; a Ledy payload written only into a Random request. */
  lemma RunLinkTradeEffects(kind: TradeType, tradeData: Entity, requester: nat, deletFile: bool,
                            lastOffered: Snapshot, logs: Logs, cfg: HubConfig, obs: LinkTradeObs)
    ensures var run := RunLinkTrade(kind, tradeData, requester, deletFile, lastOffered, logs, cfg, obs);
            && (run.lastOffered != lastOffered ==> run.result == Success && kind != Dump && kind != Seed)
            && (run.result == Success && kind != Dump && kind != Seed ==> run.lastOffered == obs.finalOffer)
            && (kind == Dump && run.counter.Some? ==>
                  run.counter == Some(CompletedDumps) && Dumped(obs.dumpPolls, cfg.maxDumpsPerTrade, BlankHash) != [])
            && (run.injected.Some? ==> kind == Random)
  {
    if InterruptedAt(obs.interrupt, BeforeBarrier) || !obs.startOnOverworld || !PartnerFound(obs) {
    } else {
      var v := CheckPartner(logs, cfg.abuse, kind == Random, requester, obs.partnerNid, obs.partnerName, obs.now);
      var run := RunLinkTrade(kind, tradeData, requester, deletFile, lastOffered, logs, cfg, obs);
      if v.result == Success {
        ExchangeEffects(kind, tradeData, deletFile, lastOffered, cfg, obs);
        assert run == Exchange(kind, tradeData, deletFile, lastOffered, cfg, obs).(verdict := Some(v));
      } else {
        assert run == TradeRun(v.result, NoFault, true, Some(v), None, None, lastOffered);
      }
    }
  }
}
