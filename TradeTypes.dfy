/**
 * Vocabulary shared by every part of the link-trade bot: the outcome taxonomy of one
 * trade attempt, the request kinds, the trade payload reduced to the facts the bot
 * inspects, raw device snapshots and the queue priority tiers.
 */
module TradeTypes {

  datatype Option<T> = None | Some(value: T)

  /** Outcome of one execution attempt of a trade request (PokeTradeResult). */
  datatype TradeResult =
    | Success
    | NoTrainerFound
    | TrainerTooSlow
    | TrainerLeft
    | TrainerRequestBad
    | IllegalTrade
    | SuspiciousActivity
    | RoutineCancel
    | ExceptionConnection
    | ExceptionInternal
    | RecoverStart
    | RecoverPostLinkCode
    | RecoverOpenBox
    | RecoverReturnOverworld

  /** An exception escaping a trade attempt: a lost device connection
      (SocketException) or any other exception. */
  datatype Fault = NoFault | SocketFault | OtherFault

  /** Kind of a queued request (PokeTradeType); `MutiTrade` keeps the source's spelling. */
  datatype TradeType = Specific | Random | Clone | Seed | Dump | MutiTrade

  /**
   * A trade payload (PK8). The bot never looks inside it beyond these facts, which are
   * opaque values here: the species number, the identity hash computed by the search
   * utility, the stored checksum and whether it is valid, the verdict of the legality
   * analysis and the HOME tracker.
   */
  datatype Entity = Entity(
    species: nat,
    hash: nat,
    checksum: nat,
    checksumValid: bool,
    legal: bool,
    tracker: nat)

  /** Bytes read from the console's memory. */
  type Bytes = seq<bv8>

  /** An 8-byte read, as taken of the partner's offer slot and of box 1 slot 1. */
  type Snapshot = s: Bytes | |s| == 8 witness [0, 0, 0, 0, 0, 0, 0, 0]

  const EmptySnapshot: Snapshot := [0, 0, 0, 0, 0, 0, 0, 0]

  /** Priority tiers of the trade queues; a lower tier is served first. Their values
      are defined outside the trade bot and nothing here depends on them. */
  const TierFree: nat
  const Tier2: nat

  function Min(a: nat, b: nat): nat
  {
    if a <= b then a else b
  }
}
