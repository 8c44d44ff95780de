/**
 * What happens to a request whose trade attempt failed: it is put back in its queue
 * once, at a bounded priority, or it is cancelled for good.
 */
module RetryPolicy {
  import opened TradeTypes

  datatype Disposition = Requeue(priority: nat) | Cancel

  /**
   * The decision of HandleAbortedTrade. `retryable` is the set of outcomes for which
   * ShouldAttemptRetry holds; that classification is defined outside the trade bot.
   */
  function Classify(result: TradeResult, kind: TradeType, isRetry: bool, priority: nat,
                    retryable: set<TradeResult>): (d: Disposition)
    ensures d.Requeue? <==> result in retryable && kind != Random && !isRetry
    ensures d.Requeue? ==> d.priority <= priority && d.priority <= Tier2
    ensures d.Requeue? ==> d.priority == priority || d.priority == Tier2
  {
    if result in retryable && kind != Random && !isRetry then Requeue(Min(priority, Tier2)) else Cancel
  }

  /**
   * The number of times one request goes back to its queue when its successive attempts
   * fail with `failures` in order. A cancelled request is gone, so later entries of
   * `failures` are never reached.
   */
  function Requeues(kind: TradeType, isRetry: bool, priority: nat, failures: seq<TradeResult>,
                    retryable: set<TradeResult>): nat
    decreases |failures|
  {
    if failures == [] then 0
    else
      match Classify(failures[0], kind, isRetry, priority, retryable)
      case Cancel => 0
      case Requeue(p) => 1 + Requeues(kind, true, p, failures[1..], retryable)
  }

  /** A request is requeued at most once, never once it carries the retry flag, and
      never when it comes from the distribution pool. */
  lemma {:induction false} AtMostOneRequeue(kind: TradeType, isRetry: bool, priority: nat,
                                            failures: seq<TradeResult>, retryable: set<TradeResult>)
    ensures Requeues(kind, isRetry, priority, failures, retryable) <= 1
    ensures isRetry || kind == Random ==> Requeues(kind, isRetry, priority, failures, retryable) == 0
    decreases |failures|
  {
    if failures != [] {
      match Classify(failures[0], kind, isRetry, priority, retryable)
      case Cancel =>
      case Requeue(p) =>
        AtMostOneRequeue(kind, true, p, failures[1..], retryable);
    }
  }

  /** A fresh request that fails retryably twice is requeued once and then cancelled. */
  lemma SecondFailureCancels(kind: TradeType, priority: nat, first: TradeResult, second: TradeResult,
                             retryable: set<TradeResult>)
    requires kind != Random && first in retryable
    ensures Classify(first, kind, false, priority, retryable).Requeue?
    ensures Classify(second, kind, true, Classify(first, kind, false, priority, retryable).priority, retryable) == Cancel
    ensures Requeues(kind, false, priority, [first, second], retryable) == 1
  {
    assert [first, second][1..] == [second];
  }
}
