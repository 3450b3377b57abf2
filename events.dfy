/** The events a widget receives and the status it reports, and the message
    queue a widget appends to while handling an event. */
module Events {

  datatype MouseButton = Left | Right | Middle | Other(code: nat)

  /** Mouse events; cursor coordinates and scroll deltas are floating point
      and are not modelled. */
  datatype MouseEvent =
    | CursorEntered
    | CursorLeft
    | CursorMoved
    | ButtonPressed(pressed: MouseButton)
    | ButtonReleased(released: MouseButton)
    | WheelScrolled

  /** An input event; keyboard, window and touch payloads are not modelled. */
  datatype Event = Mouse(mouse: MouseEvent) | Keyboard | Window | Touch

  /** Whether a widget consumed an event. */
  datatype Status = Captured | Ignored

  predicate IsLeftPress(event: Event)
  {
    event == Mouse(ButtonPressed(Left))
  }

  /** The `Vec<Message>` a widget pushes its messages onto; the vector is
      updated in place, so it is a class whose contents the widget changes. */
  class MessageQueue<M> {
    var items: seq<M>

    constructor ()
      ensures items == []
    {
      items := [];
    }

    /** `Vec::push` */
    method Push(m: M)
      modifies this
      ensures items == old(items) + [m]
    {
      items := items + [m];
    }
  }
}
