/** Input events and the screen-stack transitions of the game engine. The
    transition is generic in the kind of screen it carries. */
module Navigation {

  /** The events the engine queues: the timer tick, quitting, and the arrow keys. */
  datatype Event = Tick | Quit | Up | Down | Left | Right

  /** What a screen asks the engine to do with the stack after handling work. */
  datatype Transition<S> = Push(next: S) | Replace(next: S) | None

  /** `navigate`: apply a transition to the stack of screens (top is last).
      Replacing the top of an empty stack is the original's `unwrap` panic,
      excluded by the precondition. */
  function Navigated<S>(t: Transition<S>, states: seq<S>): (r: seq<S>)
    requires t.Replace? ==> |states| > 0
    ensures t.Push? ==> |r| == |states| + 1 && r[..|states|] == states && r[|states|] == t.next
    ensures t.Replace? ==> |r| == |states| && r[..|states| - 1] == states[..|states| - 1] && r[|states| - 1] == t.next
    ensures t.None? ==> r == states
    ensures |r| >= |states| && (|states| > 0 ==> |r| > 0)
  {
    match t
    case Push(next) => states + [next]
    case Replace(next) => states[..|states| - 1] + [next]
    case None => states
  }
}
