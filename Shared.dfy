/** Types shared by the services: nullable values, C#'s 32-bit `int`, the
    string checks the services validate with, the two exceptions the CRUD
    services raise, and the order event that crosses the message bus. */
module Shared {

  /** A reference that may be null: `None` is C#'s `null`. */
  datatype Option<+T> = None | Some(value: T)

  /** C#'s `int`: a signed 32-bit integer. */
  newtype int32 = x: int | -0x8000_0000 <= x < 0x8000_0000

  /** .NET's `char.IsWhiteSpace`: the Unicode space separators, the line and
      paragraph separators, and the control characters U+0009 to U+000D and U+0085. */
  predicate IsWhiteSpace(c: char) {
    || c == ' '
    || ('\t' <= c <= '\r')
    || c == '\U{85}' || c == '\U{A0}' || c == '\U{1680}'
    || ('\U{2000}' <= c <= '\U{200A}')
    || c == '\U{2028}' || c == '\U{2029}' || c == '\U{202F}' || c == '\U{205F}'
    || c == '\U{3000}'
  }

  /** .NET's `string.IsNullOrWhiteSpace`: null, empty, or only white space. */
  predicate IsNullOrWhiteSpace(s: Option<string>) {
    s.None? || forall i | 0 <= i < |s.value| :: IsWhiteSpace(s.value[i])
  }

  /** The exceptions the CRUD services throw, with their messages. */
  datatype Fault =
    | ArgumentException(message: string)
    | KeyNotFoundException(message: string)

  /** How a service call ended: normally, or by throwing. */
  datatype Completion = Completed | Threw(fault: Fault)

  /** A service call seen as a state transition: how it ended and the state after it. */
  datatype Step<S> = Step(completion: Completion, after: S)

  /** The "order created" message published on the bus (`Shared.Models.Event`). */
  datatype Event = Event(id: int32, product: Option<string>, quantity: int32, userId: int32)

  /** The invariant a published event is meant to satisfy: a named product,
      a positive quantity and a positive owning user. The codec does not check it;
      the producing service does, before it publishes. */
  predicate IsValidEvent(e: Event) {
    !IsNullOrWhiteSpace(e.product) && e.quantity > 0 && e.userId > 0
  }
}
