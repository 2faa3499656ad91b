/** An abstract message broker, as the consumer sees it through its channel:
    one queue of waiting messages, the deliveries handed to the consumer and
    not yet settled, and the settle calls the channel received.

    This is the environment of the consumer, not code of the repository: it
    captures the parts of AMQP 0-9-1 the consumer relies on. Delivery tags are
    issued per channel from 1 upwards; in manual-acknowledgement mode a
    delivered message stays unacknowledged until `basic.ack` removes it or
    `basic.reject` with requeue puts it back at the head of the queue; settling
    a tag the channel does not know closes the channel. */
module Broker {
  import opened Shared

  /** A delivery tag: the broker's number for one delivery on one channel. */
  type Tag = nat

  /** A message body as raw bytes. */
  type Body = seq<bv8>

  datatype Delivery = Delivery(tag: Tag, body: Body)

  /** The settle calls a consumer can issue on its channel. */
  datatype ChannelCall =
    | BasicAck(tag: Tag, multiple: bool)
    | BasicReject(tag: Tag, requeue: bool)

  datatype BrokerState = BrokerState(
    ready: seq<Body>,          // messages waiting in the queue, head first
    unacked: map<Tag, Body>,   // delivered on the channel and not yet settled
    nextTag: Tag,              // the tag the next delivery will carry
    open: bool,                // false once the broker has closed the channel
    consuming: bool,           // a consumer is subscribed to the queue
    manualAck: bool,           // the subscription asked for explicit acknowledgements
    calls: seq<ChannelCall>)   // every settle call issued on the channel, in order

  /** Tags start at 1, and every unsettled delivery carries a tag already issued. */
  ghost predicate Valid(s: BrokerState) {
    s.nextTag >= 1 && forall t | t in s.unacked :: 1 <= t < s.nextTag
  }

  /** A channel on a queue holding `queued`, before anyone subscribes. */
  function Fresh(queued: seq<Body>): (s: BrokerState)
    ensures Valid(s) && s.open && !s.consuming && s.ready == queued && s.unacked == map[]
    ensures s.nextTag == 1 && s.calls == []
  {
    BrokerState(queued, map[], 1, true, false, false, [])
  }

  /** `basic.consume`: subscribe, acknowledging automatically or not. */
  function Consume(s: BrokerState, autoAck: bool): (r: BrokerState)
    ensures r.consuming && r.manualAck == !autoAck
    ensures r.ready == s.ready && r.unacked == s.unacked && r.nextTag == s.nextTag && r.open == s.open
  {
    s.(consuming := true, manualAck := !autoAck)
  }

  /** The broker pushes the head of the queue to the subscribed consumer under
      a fresh tag. With manual acknowledgement the message is held as
      unacknowledged; with automatic acknowledgement it is gone at once. */
  function Dispatch(s: BrokerState): (r: (BrokerState, Option<Delivery>))
    ensures r.1.Some? <==> s.open && s.consuming && s.ready != []
    ensures r.1.None? ==> r.0 == s
    ensures r.1.Some? ==>
      && r.1.value == Delivery(s.nextTag, s.ready[0])
      && r.0.ready == s.ready[1..]
      && r.0.nextTag == s.nextTag + 1
      && r.0.unacked == (if s.manualAck then s.unacked[s.nextTag := s.ready[0]] else s.unacked)
      && r.0.calls == s.calls
    ensures Valid(s) ==> Valid(r.0)
  {
    if s.open && s.consuming && s.ready != [] then
      var d := Delivery(s.nextTag, s.ready[0]);
      var held := if s.manualAck then s.unacked[d.tag := d.body] else s.unacked;
      (s.(ready := s.ready[1..], unacked := held, nextTag := s.nextTag + 1), Some(d))
    else
      (s, None)
  }

  /** `basic.ack`: settle the delivery `tag` (and with `multiple` every
      earlier one too) as processed; it leaves the broker for good. */
  function Ack(s: BrokerState, tag: Tag, multiple: bool): (r: BrokerState)
    ensures r.calls == s.calls + [BasicAck(tag, multiple)]
    ensures r.ready == s.ready && r.nextTag == s.nextTag
    ensures s.open && tag in s.unacked && !multiple ==> r.open && r.unacked == s.unacked - {tag}
    ensures s.open && tag !in s.unacked ==> !r.open && r.unacked == s.unacked
    ensures r.unacked.Keys <= s.unacked.Keys
    ensures Valid(s) ==> Valid(r)
  {
    var issued := s.(calls := s.calls + [BasicAck(tag, multiple)]);
    if !s.open then issued
    else if tag !in s.unacked then issued.(open := false)
    else if multiple then issued.(unacked := map t | t in s.unacked && t > tag :: s.unacked[t])
    else issued.(unacked := s.unacked - {tag})
  }

  /** `basic.reject`: settle the delivery `tag` as failed; with `requeue` the
      message goes back to the head of the queue, otherwise it is dropped
      (no dead-letter exchange is configured). */
  function Reject(s: BrokerState, tag: Tag, requeue: bool): (r: BrokerState)
    ensures r.calls == s.calls + [BasicReject(tag, requeue)]
    ensures r.nextTag == s.nextTag
    ensures s.open && tag in s.unacked ==>
      && r.open
      && r.unacked == s.unacked - {tag}
      && r.ready == (if requeue then [s.unacked[tag]] + s.ready else s.ready)
    ensures s.open && tag !in s.unacked ==> !r.open && r.unacked == s.unacked && r.ready == s.ready
    ensures Valid(s) ==> Valid(r)
  {
    var issued := s.(calls := s.calls + [BasicReject(tag, requeue)]);
    if !s.open then issued
    else if tag !in s.unacked then issued.(open := false)
    else
      issued.(unacked := s.unacked - {tag},
              ready := if requeue then [s.unacked[tag]] + s.ready else s.ready)
  }

  /** The broker's response to one settle call. */
  function Perform(s: BrokerState, call: ChannelCall): (r: BrokerState) {
    match call
    case BasicAck(tag, multiple) => Ack(s, tag, multiple)
    case BasicReject(tag, requeue) => Reject(s, tag, requeue)
  }

  /** The consumer's channel as an object: the broker state in fields, and
      methods for the operations above. */
  class Channel {
    var ready: seq<Body>
    var unacked: map<Tag, Body>
    var nextTag: Tag
    var open: bool
    var consuming: bool
    var manualAck: bool
    var calls: seq<ChannelCall>

    function State(): BrokerState
      reads this
    {
      BrokerState(ready, unacked, nextTag, open, consuming, manualAck, calls)
    }

    constructor (queued: seq<Body>)
      ensures State() == Fresh(queued)
    {
      ready, unacked, nextTag := queued, map[], 1;
      open, consuming, manualAck := true, false, false;
      calls := [];
    }

    method BasicConsume(autoAck: bool)
      modifies this
      ensures State() == Consume(old(State()), autoAck)
    {
      consuming, manualAck := true, !autoAck;
    }

    /** The broker's push of the next message to the subscribed consumer. */
    method Deliver() returns (d: Option<Delivery>)
      modifies this
      ensures (State(), d) == Dispatch(old(State()))
    {
      if !open || !consuming || ready == [] {
        return None;
      }
      d := Some(Delivery(nextTag, ready[0]));
      if manualAck {
        unacked := unacked[nextTag := ready[0]];
      }
      ready, nextTag := ready[1..], nextTag + 1;
    }

    method BasicAck(tag: Tag, multiple: bool)
      modifies this
      ensures State() == Ack(old(State()), tag, multiple)
    {
      calls := calls + [ChannelCall.BasicAck(tag, multiple)];
      if !open {
        return;
      }
      if tag !in unacked {
        open := false;
      } else if multiple {
        unacked := map t | t in unacked && t > tag :: unacked[t];
      } else {
        unacked := unacked - {tag};
      }
    }

    method BasicReject(tag: Tag, requeue: bool)
      modifies this
      ensures State() == Reject(old(State()), tag, requeue)
    {
      calls := calls + [ChannelCall.BasicReject(tag, requeue)];
      if !open {
        return;
      }
      if tag !in unacked {
        open := false;
      } else {
        if requeue {
          ready := [unacked[tag]] + ready;
        }
        unacked := unacked - {tag};
      }
    }
  }
}
