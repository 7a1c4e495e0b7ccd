/** The game objects whose fields are updated in place: the state holder
    (score, animation flag, theme) and the controller that runs a round,
    holding the round its animation timer will resolve. Each controller
    method is proved to follow one `Session.Step`. */
module Game {
  import opened Wrappers
  import opened GameConfig
  import opened Resolver
  import Theme
  import Session

  class GameState {
    var score: Score
    var isAnimating: bool
    var theme: string

    /** A fresh game: no points, not animating, theme from the stored preference. */
    constructor (stored: Option<string>)
      ensures score == Score(0, 0) && !isAnimating
      ensures theme == Theme.InitialTheme(stored)
    {
      score := Score(0, 0);
      isAnimating := false;
      theme := Theme.InitialTheme(stored);
    }

    /** Both scores back to zero; the animation flag and the theme are left as they are. */
    method Reset()
      modifies this`score
      ensures score == Score(0, 0)
      ensures isAnimating == old(isAnimating) && theme == old(theme)
    {
      score := score.(player := 0);
      score := score.(computer := 0);
    }

    /** Flip between dark and light; the score and the flag are untouched. */
    method ToggleTheme()
      modifies this`theme
      ensures theme == Theme.Toggled(old(theme))
      ensures score == old(score) && isAnimating == old(isAnimating)
    {
      theme := if theme == Theme.Dark then Theme.Light else Theme.Dark;
    }
  }

  class GameController {
    const state: GameState
    /** The round captured by the scheduled animation timer, if one is scheduled. */
    var pending: Option<Session.Round>

    /** The flag is up exactly while a timer is scheduled. */
    ghost predicate Valid()
      reads this, state
    {
      Session.Consistent(Snapshot())
    }

    /** The abstract session state this controller and its state object represent. */
    ghost function Snapshot(): Session.State
      reads this, state
    {
      Session.State(state.score, state.isAnimating, pending, state.theme)
    }

    constructor (stored: Option<string>)
      ensures Valid() && fresh(state)
      ensures Snapshot() == Session.Initial(stored)
    {
      state := new GameState(stored);
      pending := None;
    }

    /** A choice button: ignored while a round animates; otherwise raise the
        flag and schedule the round with both choices captured now. */
    method HandlePlayerChoice(player: Choice, computer: Choice)
      requires Valid()
      modifies this, state
      ensures Valid()
      ensures old(state.isAnimating) ==> Snapshot() == old(Snapshot())
      ensures !old(state.isAnimating) ==>
        state.isAnimating && pending == Some(Session.Round(player, computer))
        && state.score == old(state.score) && state.theme == old(state.theme)
      ensures Snapshot() == Session.Step(old(Snapshot()), Session.Choose(player, computer))
    {
      if state.isAnimating {
        return;
      }
      state.isAnimating := true;
      pending := Some(Session.Round(player, computer));
    }

    /** The scheduled timer fires: resolve the captured round, then lower the flag. */
    method FinishRound()
      requires Valid() && pending.Some?
      modifies this, state
      ensures Valid() && !state.isAnimating && pending == None
      ensures state.score == Award(old(state.score), Resolve(old(pending).value.player, old(pending).value.computer))
      ensures state.theme == old(state.theme)
      ensures Snapshot() == Session.Step(old(Snapshot()), Session.TimerFires)
    {
      var round := pending.value;
      CompareChoices(round.player, round.computer);
      state.isAnimating := false;
      pending := None;
    }

    /** Decide the round and credit the winner; a draw leaves the score as it is. */
    method CompareChoices(player: Choice, computer: Choice)
      modifies state`score
      ensures state.score == Award(old(state.score), Resolve(player, computer))
    {
      if player == computer {
        // a draw only announces itself
      } else if Beats(player) == computer {
        HandlePlayerWin();
      } else {
        HandleComputerWin();
      }
    }

    method HandlePlayerWin()
      modifies state`score
      ensures state.score == Score(old(state.score.player) + 1, old(state.score.computer))
    {
      state.score := state.score.(player := state.score.player + 1);
    }

    method HandleComputerWin()
      modifies state`score
      ensures state.score == Score(old(state.score.player), old(state.score.computer) + 1)
    {
      state.score := state.score.(computer := state.score.computer + 1);
    }

    /** The reset button: zero the score, leaving a scheduled round in place. */
    method OnReset()
      requires Valid()
      modifies state
      ensures Valid()
      ensures Snapshot() == Session.Step(old(Snapshot()), Session.ResetPressed)
    {
      state.Reset();
    }

    /** The theme button. */
    method OnToggleTheme()
      requires Valid()
      modifies state
      ensures Valid()
      ensures Snapshot() == Session.Step(old(Snapshot()), Session.ThemeToggled)
    {
      state.ToggleTheme();
    }
  }
}
