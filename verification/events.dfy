/** The part of a pygame input event that the meter looks at. */
module Events {
  import opened Base

  datatype EventKind = Quit | VideoResize | MouseButtonDown | MouseButtonUp | KeyUp | OtherEvent

  datatype Point = Point(x: int, y: int)

  /**
   * An event has a kind and, for mouse events only, a screen position
   * (`hasattr(event, 'pos')` in the source).
   */
  datatype Event = Event(kind: EventKind, pos: Option<Point>)

  /** The first `i + 1` events hold no QUIT exactly when the first `i` hold none and event `i` is not one. */
  lemma NoQuitExtend(polled: seq<Event>, i: nat)
    requires i < |polled|
    ensures (forall j :: 0 <= j < i + 1 ==> polled[j].kind != Quit) <==>
      (forall j :: 0 <= j < i ==> polled[j].kind != Quit) && polled[i].kind != Quit
  {
  }
}
