/** The notification consumer (NotificationService/Services/NotificationHandler.cs):
    connecting to the broker with bounded retry, deciding per message whether
    it was processed, and settling each delivery with exactly one ack or
    reject on the consumer's channel.

    The broker client's connection factory is an oracle `dial`: `dial(k)` is
    how the k-th call of `CreateConnection` ends. JSON decoding and UTF-8
    conversion are library code, so they are an oracle too (`Codec`). */
module Notifications {
  import opened Shared
  import opened Broker

  // ---------------------------------------------------------------------------
  // Connecting with retry
  // ---------------------------------------------------------------------------

  /** The exceptions `CreateConnection` can end with, as far as the retry loop
      tells them apart. */
  datatype Failure = BrokerUnreachableException | OtherException(name: string)

  /** An open broker connection (an opaque handle). */
  datatype Connection = Connection(handle: nat)

  /** How one call of `CreateConnection` ends. */
  datatype DialOutcome = Connected(connection: Connection) | DialFailed(failure: Failure)

  /** What the connection code does besides returning: dial attempts, retry
      warnings, back-off delays, and the constructor's final log line. */
  datatype Effect =
    | Dialed(attempt: nat)
    | Warned(attempt: nat, of: nat)
    | Slept(ms: nat)
    | LoggedConnected
    | LoggedConnectFailure

  datatype EffectKind = Dial | Warning | Delay | Information | Error

  function KindOf(e: Effect): (kind: EffectKind) {
    match e
    case Dialed(_) => Dial
    case Warned(_, _) => Warning
    case Slept(_) => Delay
    case LoggedConnected => Information
    case LoggedConnectFailure => Error
  }

  /** How many effects of a kind a trace holds. */
  function Count(effects: seq<Effect>, kind: EffectKind): (n: nat)
    decreases |effects|
  {
    if effects == [] then 0
    else (if KindOf(effects[0]) == kind then 1 else 0) + Count(effects[1..], kind)
  }

  lemma {:induction false} CountAppend(a: seq<Effect>, b: seq<Effect>, kind: EffectKind)
    ensures Count(a + b, kind) == Count(a, kind) + Count(b, kind)
    decreases |a|
  {
    if a != [] {
      assert (a + b)[0] == a[0];
      assert (a + b)[1..] == a[1..] + b;
      CountAppend(a[1..], b, kind);
    } else {
      assert a + b == b;
    }
  }

  /** One effect's contribution to a count. */
  function CountOne(e: Effect, kind: EffectKind): (n: nat) {
    if KindOf(e) == kind then 1 else 0
  }

  lemma CountSingle(e: Effect, kind: EffectKind)
    ensures Count([e], kind) == CountOne(e, kind)
  {
    assert [e][1..] == [];
  }

  const RetryAttempts: nat := 5
  const DelayBetweenRetries: nat := 5000  // milliseconds

  /** The one failure the loop retries. */
  predicate IsUnreachable(outcome: DialOutcome) {
    outcome == DialFailed(BrokerUnreachableException)
  }

  function SettledFrom(dial: nat -> DialOutcome, attempt: nat): (k: nat)
    requires 1 <= attempt <= RetryAttempts
    ensures attempt <= k <= RetryAttempts
    ensures forall i | attempt <= i < k :: IsUnreachable(dial(i))
    ensures k < RetryAttempts ==> !IsUnreachable(dial(k))
    decreases RetryAttempts - attempt
  {
    if attempt == RetryAttempts || !IsUnreachable(dial(attempt)) then attempt
    else SettledFrom(dial, attempt + 1)
  }

  /** The attempt on which the retry loop stops: the first whose outcome is not
      "broker unreachable", or the last allowed attempt. */
  function SettledAttempt(dial: nat -> DialOutcome): (k: nat)
    ensures 1 <= k <= RetryAttempts
    ensures forall i | 1 <= i < k :: IsUnreachable(dial(i))
    ensures k < RetryAttempts ==> !IsUnreachable(dial(k))
  {
    SettledFrom(dial, 1)
  }

  /** The trace of `n` failed attempts that are retried: dial, warn, wait. */
  function RetryRounds(n: nat): (t: seq<Effect>)
    ensures |t| == 3 * n
    ensures forall i | 0 <= i < n ::
      t[3 * i] == Dialed(i + 1) && t[3 * i + 1] == Warned(i + 1, RetryAttempts)
      && t[3 * i + 2] == Slept(DelayBetweenRetries)
    decreases n
  {
    if n == 0 then []
    else RetryRounds(n - 1) + [Dialed(n), Warned(n, RetryAttempts), Slept(DelayBetweenRetries)]
  }

  lemma {:induction false} RetryRoundsCounts(n: nat)
    ensures Count(RetryRounds(n), Dial) == n
    ensures Count(RetryRounds(n), Warning) == n
    ensures Count(RetryRounds(n), Delay) == n
    ensures Count(RetryRounds(n), Information) == 0 && Count(RetryRounds(n), Error) == 0
    decreases n
  {
    if n > 0 {
      var last := [Dialed(n), Warned(n, RetryAttempts), Slept(DelayBetweenRetries)];
      RetryRoundsCounts(n - 1);
      forall kind: EffectKind
        ensures Count(RetryRounds(n), kind) == Count(RetryRounds(n - 1), kind) + Count(last, kind)
      {
        CountAppend(RetryRounds(n - 1), last, kind);
      }
      forall kind: EffectKind
        ensures Count(last, kind) == CountOne(Dialed(n), kind) + CountOne(Warned(n, RetryAttempts), kind)
          + CountOne(Slept(DelayBetweenRetries), kind)
      {
        assert last == [Dialed(n)] + ([Warned(n, RetryAttempts)] + [Slept(DelayBetweenRetries)]);
        CountAppend([Dialed(n)], [Warned(n, RetryAttempts)] + [Slept(DelayBetweenRetries)], kind);
        CountAppend([Warned(n, RetryAttempts)], [Slept(DelayBetweenRetries)], kind);
        CountSingle(Dialed(n), kind);
        CountSingle(Warned(n, RetryAttempts), kind);
        CountSingle(Slept(DelayBetweenRetries), kind);
      }
    }
  }

  /** The trace of the retry loop: the retried failures, then the attempt it stops on. */
  function RetryTrace(dial: nat -> DialOutcome): (t: seq<Effect>) {
    RetryRounds(SettledAttempt(dial) - 1) + [Dialed(SettledAttempt(dial))]
  }

  /** `CreateConnectionWithRetry`: call `CreateConnection` up to five times.
      A connection is returned at once; an exception other than
      `BrokerUnreachableException` propagates at once; that one is logged as
      a warning and followed by a five-second wait, except on the fifth
      attempt, where it is rethrown. */
  method CreateConnectionWithRetry(dial: nat -> DialOutcome) returns (outcome: DialOutcome, effects: seq<Effect>)
    ensures outcome == dial(SettledAttempt(dial))
    ensures effects == RetryTrace(dial)
  {
    effects := [];
    var attempt := 1;
    while attempt <= RetryAttempts
      invariant 1 <= attempt <= RetryAttempts
      invariant forall i | 1 <= i < attempt :: IsUnreachable(dial(i))
      invariant effects == RetryRounds(attempt - 1)
      decreases RetryAttempts - attempt
    {
      effects := effects + [Dialed(attempt)];
      outcome := dial(attempt);
      match outcome {
        case Connected(_) =>
          return;
        case DialFailed(OtherException(_)) =>
          return;
        case DialFailed(BrokerUnreachableException) =>
          if attempt == RetryAttempts {
            return;
          }
          effects := effects + [Warned(attempt, RetryAttempts), Slept(DelayBetweenRetries)];
      }
      attempt := attempt + 1;
    }
    // The loop never runs to completion, so the fallback exception after it is unreachable.
    assert false;
  }

  /** The connection part of the constructor: connect with retry, then log
      success, or log the failure and rethrow it. */
  method OpenConnection(dial: nat -> DialOutcome) returns (outcome: DialOutcome, effects: seq<Effect>)
    ensures outcome == dial(SettledAttempt(dial))
    ensures effects == RetryTrace(dial) + [if outcome.Connected? then LoggedConnected else LoggedConnectFailure]
  {
    outcome, effects := CreateConnectionWithRetry(dial);
    if outcome.Connected? {
      effects := effects + [LoggedConnected];
    } else {
      effects := effects + [LoggedConnectFailure];
    }
  }

  /** Every trace of the retry loop: at most five dials, and exactly one
      warning and one delay per dial except the last. */
  lemma RetryTraceCounts(dial: nat -> DialOutcome)
    ensures Count(RetryTrace(dial), Dial) == SettledAttempt(dial) <= RetryAttempts
    ensures Count(RetryTrace(dial), Warning) == SettledAttempt(dial) - 1
    ensures Count(RetryTrace(dial), Delay) == SettledAttempt(dial) - 1
    ensures RetryTrace(dial)[|RetryTrace(dial)| - 1] == Dialed(SettledAttempt(dial))
  {
    var k := SettledAttempt(dial);
    RetryRoundsCounts(k - 1);
    assert RetryTrace(dial) == RetryRounds(k - 1) + [Dialed(k)];
    forall kind: EffectKind
      ensures Count(RetryTrace(dial), kind) == Count(RetryRounds(k - 1), kind) + CountOne(Dialed(k), kind)
    {
      CountAppend(RetryRounds(k - 1), [Dialed(k)], kind);
      CountSingle(Dialed(k), kind);
    }
  }

  /** If the first k - 1 attempts find the broker unreachable and attempt
      k <= 5 connects, that connection is returned after k - 1 warnings and
      k - 1 delays. */
  lemma ConnectsAfterRetries(dial: nat -> DialOutcome, k: nat, c: Connection)
    requires 1 <= k <= RetryAttempts
    requires forall i | 1 <= i < k :: IsUnreachable(dial(i))
    requires dial(k) == Connected(c)
    ensures SettledAttempt(dial) == k && dial(SettledAttempt(dial)) == Connected(c)
    ensures Count(RetryTrace(dial), Warning) == k - 1 && Count(RetryTrace(dial), Delay) == k - 1
  {
    RetryTraceCounts(dial);
  }

  /** If every attempt finds the broker unreachable, the fifth exception is
      the result: five dials, four warnings (none for the fifth failure), and
      no sixth attempt. */
  lemma UnreachableBrokerGivesUp(dial: nat -> DialOutcome)
    requires forall i | 1 <= i <= RetryAttempts :: IsUnreachable(dial(i))
    ensures dial(SettledAttempt(dial)) == DialFailed(BrokerUnreachableException)
    ensures Count(RetryTrace(dial), Dial) == 5 && Count(RetryTrace(dial), Warning) == 4
    ensures RetryTrace(dial)[|RetryTrace(dial)| - 1] == Dialed(5)
  {
    RetryTraceCounts(dial);
  }

  /** Only `BrokerUnreachableException` is retried: any other exception on
      attempt k is what the loop ends with, and nothing is tried after it. */
  lemma OtherFailurePropagates(dial: nat -> DialOutcome, k: nat, name: string)
    requires 1 <= k <= RetryAttempts
    requires forall i | 1 <= i < k :: IsUnreachable(dial(i))
    requires dial(k) == DialFailed(OtherException(name))
    ensures SettledAttempt(dial) == k && dial(SettledAttempt(dial)) == DialFailed(OtherException(name))
    ensures Count(RetryTrace(dial), Dial) == k
  {
    RetryTraceCounts(dial);
  }

  // ---------------------------------------------------------------------------
  // Processing one message
  // ---------------------------------------------------------------------------

  /** How `JsonSerializer.Deserialize<Event>` ends on a text: an event, `null`
      (the text is the JSON literal null), or an exception (malformed input). */
  datatype Decoded = Deserialized(event: Event) | DeserializedNull | DeserializeThrew

  /** The library code the consumer relies on: UTF-8 decoding of a body, and
      JSON deserialization of the text. */
  datatype Codec = Codec(utf8: Body -> string, deserialize: string -> Decoded)

  /** The line `ProcessMessageAsync` logs: the four fields of a received
      order, or an error. */
  datatype Notice =
    | OrderReceived(id: int32, product: Option<string>, quantity: int32, userId: int32)
    | ProcessingError

  datatype Processed = Processed(success: bool, notice: Notice)

  /** `ProcessMessageAsync`: deserialize, log the order's four fields, report
      success. A null result makes the field access throw, and every exception
      is caught and reported as failure, so the method itself never throws. */
  function ProcessMessage(deserialize: string -> Decoded, message: string): (r: Processed)
    ensures r.success <==> deserialize(message).Deserialized?
    ensures r.success ==> var e := deserialize(message).event;
      r.notice == OrderReceived(e.id, e.product, e.quantity, e.userId)
    ensures !r.success ==> r.notice == ProcessingError
  {
    match deserialize(message)
    case Deserialized(e) => Processed(true, OrderReceived(e.id, e.product, e.quantity, e.userId))
    case DeserializedNull => Processed(false, ProcessingError)  // NullReferenceException, caught
    case DeserializeThrew => Processed(false, ProcessingError)
  }

  /** A body decodes when its UTF-8 text deserializes to a non-null event. */
  predicate Decodes(codec: Codec, body: Body) {
    codec.deserialize(codec.utf8(body)).Deserialized?
  }

  /** How the `Received` callback's call of `ProcessMessageAsync` ends. */
  datatype HandlerOutcome = Returned(success: bool) | Raised

  /** The callback's decision: acknowledge this delivery alone when processing
      returned true; otherwise (false, or an exception) reject it with requeue. */
  function Settle(tag: Tag, outcome: HandlerOutcome): (call: ChannelCall)
    ensures call.tag == tag
    ensures call.BasicAck? <==> outcome == Returned(true)
    ensures call.BasicAck? ==> !call.multiple
    ensures call.BasicReject? ==> call.requeue
  {
    if outcome == Returned(true) then BasicAck(tag, false) else BasicReject(tag, true)
  }

  /** The settle call the callback issues for a delivery. */
  function SettleCall(codec: Codec, d: Delivery): (call: ChannelCall)
    ensures call.tag == d.tag
    ensures call == if Decodes(codec, d.body) then BasicAck(d.tag, false) else BasicReject(d.tag, true)
  {
    Settle(d.tag, Returned(ProcessMessage(codec.deserialize, codec.utf8(d.body)).success))
  }

  // ---------------------------------------------------------------------------
  // The consume cycle against the broker
  // ---------------------------------------------------------------------------

  /** One receive cycle: the broker pushes the head of the queue, and the
      callback settles it. */
  function Cycle(s: BrokerState, codec: Codec): (r: BrokerState)
    ensures Dispatch(s).1.None? ==> r == s
    ensures Dispatch(s).1.Some? ==> r.calls == s.calls + [SettleCall(codec, Dispatch(s).1.value)]
    ensures r.nextTag == s.nextTag || r.nextTag == s.nextTag + 1
    ensures Valid(s) ==> Valid(r)
  {
    var (pushed, d) := Dispatch(s);
    if d.None? then pushed else Perform(pushed, SettleCall(codec, d.value))
  }

  /** `n` receive cycles in a row. */
  function Cycles(s: BrokerState, codec: Codec, n: nat): (r: BrokerState)
    decreases n
  {
    if n == 0 then s else Cycles(Cycle(s, codec), codec, n - 1)
  }

  /** A subscription with manual acknowledgement, on an open channel. */
  ghost predicate Subscribed(s: BrokerState) {
    Valid(s) && s.open && s.consuming && s.manualAck
  }

  /** One cycle issues exactly one settle call, carrying the tag of the
      delivery it settles; it acks exactly when the message decodes. An acked
      message leaves the queue; a rejected one is back at its head. Either way
      nothing stays unacknowledged. */
  lemma CycleSettlesHead(s: BrokerState, codec: Codec)
    requires Subscribed(s) && s.ready != []
    ensures var r := Cycle(s, codec);
      && Subscribed(r)
      && r.calls == s.calls + [if Decodes(codec, s.ready[0]) then BasicAck(s.nextTag, false)
                               else BasicReject(s.nextTag, true)]
      && r.unacked == s.unacked
      && r.ready == (if Decodes(codec, s.ready[0]) then s.ready[1..] else s.ready)
      && r.nextTag == s.nextTag + 1
  {
    var (pushed, d) := Dispatch(s);
    assert s.nextTag !in s.unacked;
    assert pushed.unacked - {s.nextTag} == s.unacked;
    if !Decodes(codec, s.ready[0]) {
      assert [s.ready[0]] + s.ready[1..] == s.ready;
    }
  }

  /** Messages leave the queue only when acknowledged: across a cycle the
      waiting and unacknowledged messages lose the delivered body exactly when
      it decodes, and otherwise stay as they were. */
  lemma OnlyAckRemoves(s: BrokerState, codec: Codec)
    requires Subscribed(s) && s.ready != []
    ensures multiset(Cycle(s, codec).ready) ==
      multiset(s.ready) - (if Decodes(codec, s.ready[0]) then multiset{s.ready[0]} else multiset{})
  {
    CycleSettlesHead(s, codec);
    if Decodes(codec, s.ready[0]) {
      assert s.ready == [s.ready[0]] + s.ready[1..];
    }
  }

  /** A message that never decodes is redelivered forever: after any number
      of cycles the queue is as it was and every cycle ended in a reject with
      requeue. No redelivery cap or dead-letter route ends this. */
  lemma {:induction false} PoisonMessageIsRedeliveredForever(s: BrokerState, codec: Codec, n: nat)
    requires Subscribed(s) && s.ready != [] && !Decodes(codec, s.ready[0])
    ensures var r := Cycles(s, codec, n);
      && Subscribed(r) && r.ready == s.ready && r.unacked == s.unacked
      && |r.calls| == |s.calls| + n
      && r.calls[..|s.calls|] == s.calls
      && forall i | |s.calls| <= i < |r.calls| :: r.calls[i].BasicReject? && r.calls[i].requeue
    decreases n
  {
    if n > 0 {
      var next := Cycle(s, codec);
      CycleSettlesHead(s, codec);
      PoisonMessageIsRedeliveredForever(next, codec, n - 1);
      var r := Cycles(next, codec, n - 1);
      assert r.calls[..|next.calls|] == next.calls;
      assert r.calls[..|s.calls|] == next.calls[..|s.calls|];
    }
  }

  // ---------------------------------------------------------------------------
  // The consumer object
  // ---------------------------------------------------------------------------

  /** The consumer: its channel, the library code it decodes with, and the
      lines it logs while processing. */
  class NotificationHandler {
    const channel: Channel
    const codec: Codec
    var notices: seq<Notice>

    constructor (channel: Channel, codec: Codec)
      ensures this.channel == channel && this.codec == codec && notices == []
    {
      this.channel := channel;
      this.codec := codec;
      notices := [];
    }

    /** `StartConsuming`: subscribe with manual acknowledgement. */
    method StartConsuming()
      modifies channel
      ensures channel.State() == Consume(old(channel.State()), false)
      ensures channel.manualAck
    {
      channel.BasicConsume(false);
    }

    method ProcessMessageAsync(message: string) returns (success: bool)
      modifies this
      ensures success == ProcessMessage(codec.deserialize, message).success
      ensures notices == old(notices) + [ProcessMessage(codec.deserialize, message).notice]
    {
      match codec.deserialize(message) {
        case Deserialized(e) =>
          notices := notices + [OrderReceived(e.id, e.product, e.quantity, e.userId)];
          success := true;
        case _ =>
          notices := notices + [ProcessingError];
          success := false;
      }
    }

    /** The `Received` callback: process the body, then settle this delivery
      by its own tag, once. */
    method Received(d: Delivery)
      modifies this, channel
      ensures channel.State() == Perform(old(channel.State()), SettleCall(codec, d))
      ensures notices == old(notices) + [ProcessMessage(codec.deserialize, codec.utf8(d.body)).notice]
    {
      var message := codec.utf8(d.body);
      var processedSuccessfully := ProcessMessageAsync(message);
      if processedSuccessfully {
        channel.BasicAck(d.tag, false);
      } else {
        channel.BasicReject(d.tag, true);
      }
    }

    /** One receive cycle, run sequentially: the broker pushes the next
      message, and the callback settles it. */
    method ConsumeNext() returns (d: Option<Delivery>)
      modifies this, channel
      ensures d == Dispatch(old(channel.State())).1
      ensures channel.State() == Cycle(old(channel.State()), codec)
      ensures notices == old(notices)
        + (if d.Some? then [ProcessMessage(codec.deserialize, codec.utf8(d.value.body)).notice] else [])
    {
      d := channel.Deliver();
      if d.Some? {
        Received(d.value);
      }
    }
  }
}
