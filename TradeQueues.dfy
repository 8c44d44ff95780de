/**
 * Trade requests and the queues they wait in: the per-routine priority queue (tier
 * order, ties in arrival order) and the Ledy distribution pool that feeds anonymous
 * `Random` requests when no one is queued.
 */
module TradeQueues {
  import opened TradeTypes

  /** One queued request (PokeTradeDetail). Only the two flags and the payload change. */
  class TradeDetail {
    const Type: TradeType
    const Code: nat
    const IsSynchronized: bool
    /** The requester's local user id (Trainer.ID). */
    const TrainerId: nat
    /** The payloads of this request live in a folder that is deleted after reading. */
    const DeletFile: bool
    var TradeData: Entity
    var IsProcessing: bool
    var IsRetry: bool

    constructor (kind: TradeType, code: nat, synchronized: bool, trainerId: nat, deletFile: bool, data: Entity)
      ensures Type == kind && Code == code && IsSynchronized == synchronized
      ensures TrainerId == trainerId && DeletFile == deletFile && TradeData == data
      ensures !IsProcessing && !IsRetry
    {
      Type, Code, IsSynchronized := kind, code, synchronized;
      TrainerId, DeletFile, TradeData := trainerId, deletFile, data;
      IsProcessing, IsRetry := false, false;
    }
  }

  datatype Entry = Entry(detail: TradeDetail, priority: nat)

  /** Entries are in non-decreasing tier order. */
  predicate Sorted(q: seq<Entry>)
  {
    forall i, j :: 0 <= i < j < |q| ==> q[i].priority <= q[j].priority
  }

  /** Where an entry of tier `p` goes: after every entry whose tier is at most `p`. */
  function InsertionPoint(q: seq<Entry>, p: nat): (k: nat)
    ensures k <= |q|
    ensures forall i :: 0 <= i < k ==> q[i].priority <= p
    ensures k < |q| ==> p < q[k].priority
  {
    if q == [] || p < q[0].priority then 0 else 1 + InsertionPoint(q[1..], p)
  }

  /** Stable priority insertion: the entry goes in at its insertion point, so it is
      served after every earlier arrival of the same or a better tier and before every
      entry of a worse tier. */
  function Insert(q: seq<Entry>, e: Entry): (r: seq<Entry>)
    ensures r == q[..InsertionPoint(q, e.priority)] + [e] + q[InsertionPoint(q, e.priority)..]
  {
    if q == [] || e.priority < q[0].priority then
      [e] + q
    else
      var k, k' := InsertionPoint(q, e.priority), InsertionPoint(q[1..], e.priority);
      assert k == k' + 1;
      var r := [q[0]] + Insert(q[1..], e);
      assert q[..k] == [q[0]] + q[1..][..k'];
      assert q[k..] == q[1..][k'..];
      r
  }

  /** Position by position, insertion shifts the tail of the queue by one. */
  function Shifted(q: seq<Entry>, e: Entry, k: nat, i: nat): Entry
    requires k <= |q| && i <= |q|
  {
    if i < k then q[i] else if i == k then e else q[i - 1]
  }

  lemma InsertAt(q: seq<Entry>, e: Entry, i: nat)
    requires i <= |q|
    ensures |Insert(q, e)| == |q| + 1
    ensures Insert(q, e)[i] == Shifted(q, e, InsertionPoint(q, e.priority), i)
  {
  }

  /** Insertion keeps a queue in tier order. */
  lemma InsertKeepsSorted(q: seq<Entry>, e: Entry)
    requires Sorted(q)
    ensures Sorted(Insert(q, e))
  {
    var k := InsertionPoint(q, e.priority);
    var r := Insert(q, e);
    forall i, j | 0 <= i < j < |r|
      ensures r[i].priority <= r[j].priority
    {
      InsertAt(q, e, i);
      InsertAt(q, e, j);
      if i == k && j > k {
        assert q[k].priority <= q[j - 1].priority;
      }
    }
  }

  /** A type-specific trade queue (one of the hub's queues). */
  class TradeQueue {
    var Items: seq<Entry>

    ghost predicate Valid()
      reads this
    {
      Sorted(Items)
    }

    constructor ()
      ensures Valid() && Items == []
    {
      Items := [];
    }

    method Enqueue(detail: TradeDetail, priority: nat)
      requires Valid()
      modifies this
      ensures Valid()
      ensures Items == Insert(old(Items), Entry(detail, priority))
    {
      InsertKeepsSorted(Items, Entry(detail, priority));
      Items := Insert(Items, Entry(detail, priority));
    }

    /** Takes the head of the queue: the best tier, earliest arrival. */
    method TryDequeue() returns (r: Option<Entry>)
      requires Valid()
      modifies this
      ensures Valid()
      ensures old(Items) == [] ==> r == None && Items == []
      ensures old(Items) != [] ==> r == Some(old(Items)[0]) && Items == old(Items)[1..]
      ensures r.Some? ==> forall i :: 0 <= i < |old(Items)| ==> r.value.priority <= old(Items)[i].priority
    {
      if Items == [] {
        r := None;
      } else {
        r := Some(Items[0]);
        Items := Items[1..];
      }
    }
  }

  /** The Ledy distribution pool: requests of kind `Random` served when idle. */
  class LedyPool {
    var Pending: seq<TradeDetail>

    ghost predicate Valid()
      reads this
    {
      forall i :: 0 <= i < |Pending| ==> Pending[i].Type == Random
    }

    constructor ()
      ensures Valid() && Pending == []
    {
      Pending := [];
    }

    method TryDequeueLedy() returns (r: Option<TradeDetail>)
      requires Valid()
      modifies this
      ensures Valid()
      ensures old(Pending) == [] ==> r == None && Pending == []
      ensures old(Pending) != [] ==> r == Some(old(Pending)[0]) && Pending == old(Pending)[1..]
      ensures r.Some? ==> r.value.Type == Random
    {
      if Pending == [] {
        r := None;
      } else {
        r := Some(Pending[0]);
        Pending := Pending[1..];
      }
    }
  }
}
