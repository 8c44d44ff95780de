/**
 * The rendezvous shared by all trade bots (Hub.BotSync.Barrier) and the adaptive
 * timeout a bot uses when it waits there.
 */
module Barrier {

  /** How bots synchronize their code entry (BotSyncOption). */
  datatype BotSyncOption = NoSync | LocalSync | RemoteControl

  /**
   * The participant count of the shared barrier. `Members` records, for the proofs,
   * which bots (of type `Bot`) the count stands for.
   */
  class BotBarrier<Bot(==)> {
    var ParticipantCount: nat
    ghost var Members: set<Bot>

    ghost predicate Valid()
      reads this
    {
      ParticipantCount == |Members|
    }

    constructor ()
      ensures Valid() && Members == {}
    {
      ParticipantCount := 0;
      Members := {};
    }

    method AddParticipant(ghost who: Bot)
      requires Valid() && who !in Members
      modifies this
      ensures Valid()
      ensures Members == old(Members) + {who}
      ensures ParticipantCount == old(ParticipantCount) + 1
    {
      ParticipantCount := ParticipantCount + 1;
      Members := Members + {who};
    }

    /** Never called on an empty barrier: `who` is one of the participants. */
    method RemoveParticipant(ghost who: Bot)
      requires Valid() && who in Members
      modifies this
      ensures Valid()
      ensures Members == old(Members) - {who}
      ensures ParticipantCount == old(ParticipantCount) - 1
    {
      assert |Members - {who}| == |Members| - 1;
      ParticipantCount := ParticipantCount - 1;
      Members := Members - {who};
    }
  }

  /** The timeout passed to SignalAndWait when the bot's last `failed` rounds timed out:
      twice the configured one right after a single failure, the configured one otherwise. */
  function RoundTimeout(failed: nat, timeout: nat): (t: nat)
    ensures timeout <= t <= 2 * timeout
    ensures t != timeout ==> failed == 1
    ensures failed == 1 ==> t == 2 * timeout
  {
    if failed == 1 then 2 * timeout else timeout
  }

  /** FailedBarrier after one round: reset when released, one more when timed out. */
  function FailedAfterRound(failed: nat, released: bool): (f: nat)
    ensures released <==> f == 0
  {
    if released then 0 else failed + 1
  }

  /** FailedBarrier of a new bot after the rounds `rounds` (true: released). */
  function FailedAfter(rounds: seq<bool>): nat
  {
    if rounds == [] then 0
    else FailedAfterRound(FailedAfter(rounds[..|rounds| - 1]), rounds[|rounds| - 1])
  }

  /** FailedBarrier is the length of the run of timed-out rounds at the end of the history. */
  lemma {:induction false} FailedIsTrailingTimeouts(rounds: seq<bool>)
    ensures FailedAfter(rounds) <= |rounds|
    ensures forall i :: |rounds| - FailedAfter(rounds) <= i < |rounds| ==> !rounds[i]
    ensures FailedAfter(rounds) < |rounds| ==> rounds[|rounds| - FailedAfter(rounds) - 1]
  {
    if rounds != [] {
      var init := rounds[..|rounds| - 1];
      FailedIsTrailingTimeouts(init);
      assert forall i :: 0 <= i < |init| ==> init[i] == rounds[i];
    }
  }

  /** The timeout is doubled exactly when the previous round timed out and the one before
      it (if any) did not: two timeouts in a row bring it back to the configured value. */
  lemma DoubledOnlyAfterSingleTimeout(rounds: seq<bool>, timeout: nat)
    requires timeout > 0
    ensures RoundTimeout(FailedAfter(rounds), timeout) == 2 * timeout <==>
              |rounds| >= 1 && !rounds[|rounds| - 1] && (|rounds| == 1 || rounds[|rounds| - 2])
  {
    FailedIsTrailingTimeouts(rounds);
    if |rounds| >= 2 && !rounds[|rounds| - 1] && !rounds[|rounds| - 2] {
      assert FailedAfter(rounds) != 1;
    }
  }
}
