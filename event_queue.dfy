/**
 * The runner's event channel: a buffer of 100 events into which senders
 * offer events without blocking. An event offered to a full buffer is
 * dropped; the consumer takes events from the front.
 */
module EventBus {
  import opened Results
  import opened TeamEvents

  const Capacity: nat := 100

  /** The buffer after one non-blocking send. */
  function Offer(buffer: seq<Event>, e: Event): (r: seq<Event>)
  {
    if |buffer| < Capacity then buffer + [e] else buffer
  }

  /** The buffer after offering each event in turn. */
  function OfferAll(buffer: seq<Event>, es: seq<Event>): (r: seq<Event>)
    ensures |buffer| <= Capacity ==> |r| <= Capacity
    ensures |r| >= |buffer| && r[..|buffer|] == buffer
    decreases |es|
  {
    if |es| == 0 then buffer else OfferAll(Offer(buffer, es[0]), es[1..])
  }

  /** Offering two runs of events is offering their concatenation. */
  lemma {:induction false} OfferAllAppend(buffer: seq<Event>, xs: seq<Event>, ys: seq<Event>)
    ensures OfferAll(buffer, xs + ys) == OfferAll(OfferAll(buffer, xs), ys)
    decreases |xs|
  {
    if |xs| == 0 {
      assert xs + ys == ys;
    } else {
      assert (xs + ys)[1..] == xs[1..] + ys;
      OfferAllAppend(Offer(buffer, xs[0]), xs[1..], ys);
    }
  }

  /** Taking the first event, then m - 1 of the rest, is taking m. */
  lemma TakeOneMore<T>(buffer: seq<T>, es: seq<T>, m: nat)
    requires 0 < m <= |es|
    ensures buffer + [es[0]] + es[1..][..m - 1] == buffer + es[..m]
  {
    assert es[..m] == [es[0]] + es[1..][..m - 1];
  }

  /**
   * With no consumer in between, the buffer keeps the earliest events that
   * fit and drops the rest, in order.
   */
  lemma {:induction false} OfferAllKeepsEarliest(buffer: seq<Event>, es: seq<Event>)
    requires |buffer| <= Capacity
    ensures var room := Capacity - |buffer|;
            OfferAll(buffer, es) == buffer + es[..if |es| < room then |es| else room]
    decreases |es|
  {
    if |es| > 0 {
      var room := Capacity - |buffer|;
      var m := if |es| < room then |es| else room;
      OfferAllKeepsEarliest(Offer(buffer, es[0]), es[1..]);
      if |buffer| < Capacity {
        TakeOneMore(buffer, es, m);
      } else {
        assert es[..m] == es[1..][..0];
      }
    }
  }

  class EventQueue {
    /** The events waiting in the channel, oldest first. */
    var buffer: seq<Event>

    predicate Valid()
      reads this
    {
      |buffer| <= Capacity
    }

    /** make(chan Event, 100) */
    constructor ()
      ensures Valid() && buffer == []
    {
      buffer := [];
    }

    /** emit: a send that never blocks; a full buffer drops the event and stays as it was. */
    method Emit(e: Event)
      requires Valid()
      modifies this
      ensures Valid()
      ensures |old(buffer)| < Capacity ==> buffer == old(buffer) + [e]
      ensures |old(buffer)| >= Capacity ==> buffer == old(buffer)
      ensures buffer == OfferAll(old(buffer), [e])
    {
      if |buffer| < Capacity {
        buffer := buffer + [e];
      }
    }

    /** The consumer's receive: the oldest event, if any. */
    method Receive() returns (e: Option<Event>)
      requires Valid()
      modifies this
      ensures Valid()
      ensures |old(buffer)| == 0 ==> e == None && buffer == old(buffer)
      ensures |old(buffer)| > 0 ==> e == Some(old(buffer)[0]) && buffer == old(buffer)[1..]
    {
      if |buffer| == 0 {
        return None;
      }
      e := Some(buffer[0]);
      buffer := buffer[1..];
    }
  }
}
