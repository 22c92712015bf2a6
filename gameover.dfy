/** The game-over screen: it has no state of its own and never leaves. */
module GameOverScreen {
  import opened Navigation
  import opened PlayScreen

  /** `update`: a tick never changes the stack. */
  function Update(): (t: Transition<State>)
    ensures t.None?
  {
    Transition.None
  }

  /** `handle_event`: no event changes the stack. */
  function HandleEvent(e: Event): (t: Transition<State>)
    ensures t.None?
  {
    Transition.None
  }
}
