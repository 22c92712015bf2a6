/** The game engine: a stack of screens, of which only the top one receives
    ticks and events, and a first-in first-out queue of pending events. */
module Engine {
  import opened Navigation
  import opened PlayScreen
  import WelcomeScreen
  import GameOverScreen

  /** A screen that may be on top of the stack: anything but a play screen
      that is inconsistent or has lost its last life. No transition ever
      removes a screen, so the screens below the top are never active again
      and nothing needs to hold of them. */
  ghost predicate Active(s: State)
    reads if s.Play? then {s.ps as object, s.ps.board} else {}
  {
    s.Play? ==> s.ps.Valid() && s.ps.lives > 0
  }

  /** Applying a transition keeps every screen below the top, and the new
      top is the pushed or replacing screen or the old top. */
  lemma NavigatedKeepsBelow<S>(t: Transition<S>, states: seq<S>)
    requires |states| > 0
    ensures var r := Navigated(t, states);
      && |r| > 0 && r[..|states| - 1] == states[..|states| - 1]
      && r[|r| - 1] == (if t.None? then states[|states| - 1] else t.next)
  {
    var r := Navigated(t, states);
    if t.Push? {
      assert r[..|states| - 1] == r[..|states|][..|states| - 1];
    }
  }

  class Game {
    var events: seq<Event>
    var states: seq<State>

    /** `current_state`: the top of the stack (the original unwraps it). */
    function CurrentState(): (s: State)
      reads this
      requires |states| > 0
      ensures s == states[|states| - 1]
    {
      states[|states| - 1]
    }

    /** What the top screen may read and change: itself and its board, if it
        is a play screen. */
    ghost function TopObjects(): set<object>
      reads this
      requires |states| > 0
    {
      if CurrentState().Play? then {CurrentState().ps as object, CurrentState().ps.board as object} else {}
    }

    /** The stack is never empty and its top can be ticked. */
    ghost predicate Valid()
      reads this, if |states| > 0 then TopObjects() else {}
    {
      |states| > 0 && Active(CurrentState())
    }

    /** `init`: one play screen at level 1 with no score and three lives,
        and no pending event. */
    constructor Init()
      ensures Valid() && events == [] && |states| == 1 && states[0].Play?
      ensures fresh(states[0].ps) && fresh(states[0].ps.board) && states[0].ps.Started(1, 0, 3)
    {
      var first := new PlayState(1, 0, 3);
      events := [];
      states := [Play(first)];
    }

    /** `push_event`: queue an event at the back. */
    method PushEvent(e: Event)
      modifies this`events
      ensures events == old(events) + [e]
    {
      events := events + [e];
    }

    /** Apply the transition the top screen returned. */
    method Navigate(t: Transition<State>)
      requires |states| > 0 && Active(if t.None? then CurrentState() else t.next)
      modifies this`states
      ensures Valid() && states == Navigated(t, old(states)) && |states| >= |old(states)|
      ensures states[..|old(states)| - 1] == old(states)[..|old(states)| - 1]
    {
      NavigatedKeepsBelow(t, states);
      states := Navigated(t, states);
    }

    /** `update`: only the top screen receives the tick, then the transition
        it returns is applied to the stack. The welcome and game-over screens
        never change it; a play screen ends the game on its last life and
        replaces itself by the next level once its level is won. `t` is the
        transition the top screen returned. */
    method Update() returns (ghost t: Transition<State>)
      requires Valid()
      modifies this`states, TopObjects()
      ensures Valid() && states == Navigated(t, old(states))
      ensures old(CurrentState()).Play? ==> old(CurrentState()).ps.Updated(t)
      ensures !old(CurrentState()).Play? ==> t.None?
      ensures |states| >= |old(states)| && states[..|old(states)| - 1] == old(states)[..|old(states)| - 1]
      ensures !old(CurrentState()).Play? ==> states == old(states)
      ensures old(CurrentState()).Play? ==>
        var ps := old(CurrentState()).ps;
        && (old(ps.delay) == NextLevel(0) ==>
              && |states| == |old(states)| && CurrentState().Play? && fresh(CurrentState().ps)
              && CurrentState().ps.Started(old(ps.level) + 1, old(ps.score), old(ps.lives)))
        && (old(ps.delay) != NextLevel(0) && ps.lives == 0 ==> states == old(states) + [GameOver])
        && (old(ps.delay) != NextLevel(0) && ps.lives > 0 ==> states == old(states))
    {
      match CurrentState() {
        case Play(ps) =>
          var u := ps.Update();
          assert ps.Updated(u);
          Navigate(u);
          t := u;
        case Welcome =>
          var u := WelcomeScreen.Update();
          Navigate(u);
          t := u;
        case GameOver =>
          var u := GameOverScreen.Update();
          Navigate(u);
          t := u;
      }
    }

    /** `handle_event`: with no pending event nothing happens; otherwise the
        oldest event is taken from the queue and delivered to the top screen
        only, and the transition it returns is applied to the stack. A play
        screen steers its player, the welcome screen starts a game on the
        right arrow, the game-over screen ignores it. */
    method HandleEvent()
      requires Valid()
      modifies this`events, this`states, TopObjects()
      ensures Valid()
      ensures old(events) == [] ==> events == [] && states == old(states)
      ensures old(events) == [] && old(CurrentState()).Play? ==>
        unchanged(old(CurrentState()).ps, old(CurrentState()).ps.board)
      ensures old(events) != [] ==>
        var e := old(events)[0];
        && events == old(events)[1..]
        && |states| >= |old(states)| && states[..|old(states)| - 1] == old(states)[..|old(states)| - 1]
        && (old(CurrentState()).Play? ==>
              var ps := old(CurrentState()).ps;
              && states == old(states) && ps.Steered(e))
        && (old(CurrentState()).Welcome? && e == Right ==>
              && |states| == |old(states)| + 1 && states[..|old(states)|] == old(states)
              && CurrentState().Play? && fresh(CurrentState().ps) && CurrentState().ps.Started(1, 0, 3))
        && (old(CurrentState()).Welcome? && e != Right ==> states == old(states))
        && (old(CurrentState()).GameOver? ==> states == old(states))
    {
      if events == [] {
        return;
      }
      var e := events[0];
      events := events[1..];
      match CurrentState() {
        case Play(ps) =>
          var t := ps.HandleEvent(e);
          Navigate(t);
        case Welcome =>
          var t := WelcomeScreen.HandleEvent(e);
          Navigate(t);
        case GameOver =>
          Navigate(GameOverScreen.HandleEvent(e));
      }
    }
  }
}
