/** The work queue: a bounded channel of keys and the set of keys in flight
    (app/crates/kif-webhook/src/queue.rs). */
module Queue {
  import opened Crds

  /** The queue as a value: what the controller's step machine works on. */
  datatype View = View(inFlight: set<Key>, channel: seq<Key>)

  function Insert(v: View, k: Key): View { v.(inFlight := v.inFlight + {k}) }

  function Remove(v: View, k: Key): View { v.(inFlight := v.inFlight - {k}) }

  function Push(v: View, k: Key): View { v.(channel := v.channel + [k]) }

  function Pop(v: View): View
    requires v.channel != []
  {
    v.(channel := v.channel[1..])
  }

  datatype Enqueued = Coalesced | Sent | Blocked | ReceiverGone

  class Queue {
    const buffer: nat
    var inFlight: set<Key>
    var channel: seq<Key>
    var receiverAlive: bool

    constructor (buffer: nat)
      ensures this.buffer == buffer && receiverAlive && Contents() == View({}, [])
    {
      this.buffer, inFlight, channel, receiverAlive := buffer, {}, [], true;
    }

    function Contents(): View
      reads this
    {
      View(inFlight, channel)
    }

    /** The section of `enqueue` under the lock. */
    method TryInsert(k: Key) returns (inserted: bool)
      modifies this`inFlight
      ensures inserted == (k !in old(inFlight))
      ensures Contents() == if inserted then Insert(old(Contents()), k) else old(Contents())
    {
      if k in inFlight {
        return false;
      }
      inFlight := inFlight + {k};
      inserted := true;
    }

    /** The send that follows: it waits while the channel is full, and a send that finds no
        receiver gives the key back. */
    method Send(k: Key) returns (r: Enqueued)
      modifies this`inFlight, this`channel
      ensures r == if !receiverAlive then ReceiverGone else if |old(channel)| < buffer then Sent else Blocked
      ensures Contents() == match r
        case Sent => Push(old(Contents()), k)
        case ReceiverGone => Remove(old(Contents()), k)
        case _ => old(Contents())
    {
      if !receiverAlive {
        inFlight := inFlight - {k};
        return ReceiverGone;
      }
      if |channel| >= buffer {
        return Blocked;
      }
      channel := channel + [k];
      r := Sent;
    }

    /** `enqueue`, up to its end or up to the point where it waits for room. */
    method Enqueue(k: Key) returns (r: Enqueued)
      modifies this`inFlight, this`channel
      ensures r == if k in old(inFlight) then Coalesced
                   else if !receiverAlive then ReceiverGone
                   else if |old(channel)| < buffer then Sent else Blocked
      ensures Contents() == match r
        case Coalesced => old(Contents())
        case Sent => Push(Insert(old(Contents()), k), k)
        case Blocked => Insert(old(Contents()), k)
        case ReceiverGone => old(Contents())
    {
      var inserted := TryInsert(k);
      if !inserted {
        return Coalesced;
      }
      r := Send(k);
    }

    method Done(k: Key)
      modifies this`inFlight
      ensures Contents() == Remove(old(Contents()), k)
    {
      inFlight := inFlight - {k};
    }
  }
}
