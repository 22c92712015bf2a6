/** The welcome screen: it has no state of its own, ignores ticks and
    starts a new game on the right-arrow key. */
module WelcomeScreen {
  import opened Navigation
  import opened PlayScreen

  /** `update`: a tick never changes the stack. */
  function Update(): (t: Transition<State>)
    ensures t.None?
  {
    Transition.None
  }

  /** `handle_event`: the right arrow pushes a new game at level 1 with no
      score and three lives; every other event leaves the stack alone. */
  method HandleEvent(e: Event) returns (t: Transition<State>)
    ensures e == Right ==>
      && t.Push? && t.next.Play? && fresh(t.next.ps) && fresh(t.next.ps.board)
      && t.next.ps.Valid() && t.next.ps.Started(1, 0, 3)
    ensures e != Right ==> t.None?
  {
    match e {
      case Right =>
        var state := new PlayState(1, 0, 3);
        t := Push(Play(state));
      case _ =>
        t := Transition.None;
    }
  }
}
