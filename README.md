# Rock-Paper-Scissors game logic in Dafny

A model of the game logic of a browser Rock-Paper-Scissors game (`app.js`), with the page itself stripped away. The player picks rock, paper or scissors. The computer draws one of the three. A fixed rule table decides the round after a one-second hand-shaking animation, and a running score is kept. A theme button switches between a dark and a light look and remembers the choice.

The model has six modules:

- `GameConfig` (config.dfy) holds the three choices, the computer's draw list `Options`, and the rule table `Rules`, which maps each choice to the choice it beats. Lemmas prove that the table is total and forms a single 3-cycle.
- `Resolver` (resolver.dfy) holds the round resolver `Resolve`, the `Score` record, `Award` (how an outcome changes the score) and the result texts.
- `Theme` (theme.dfy) holds the theme preference. It is modelled as the string the browser stores, not as a two-valued enum. The code keeps any non-empty stored value as it is and falls back to `"dark"` only when nothing (or `""`) is stored. A toggle turns `"dark"` into `"light"` and anything else into `"dark"`. So toggling twice is the identity only for the two values the game itself writes.
- `Session` (session.dfy) is the game as a pure state machine over the page's events: a choice (carrying the computer's draw), the animation timer firing, reset, and theme toggle. `Step` applies one event and `Run` applies a sequence of them. The lemmas cover whole runs: scores count decisive rounds between resets, choices during an animation are ignored, a scheduled round survives a reset, at most one round is resolved per choice, and the theme depends only on how many times it was toggled.
- `Game` (game.dfy) holds the classes `GameState` (fields `score`, `isAnimating`, `theme`) and `GameController`, updated in place as in the source. The timer callback that `setTimeout` schedules is the controller's `pending` field, which holds the two captured choices, and the callback itself is the method `FinishRound`. `Valid()` says that the animation flag is up exactly while a round is pending. Every controller entry point is proved to perform one `Session.Step` on the abstract state `Snapshot()`.
- `Wrappers` (wrappers.dfy) holds the `Option` datatype.

## Model

| member | source | states |
|---|---|---|
| GameConfig.RulesAreTotal | app.js:20-24 | every choice has an entry in the rule table, so the lookup in the resolver is always defined |
| GameConfig.Beats | app.js:20-24 | the choice a given choice beats, read from the table; never the choice itself |
| GameConfig.RulesFormThreeCycle | app.js:20-24 | following "beats" three times returns to the start, and never after one or two steps |
| GameConfig.EachChoiceBeatenOnce | app.js:20-24 | every choice is beaten by exactly one choice |
| GameConfig.BeatsIsAsymmetricAndConnected | app.js:20-24 | no two choices beat each other, and of two distinct choices one beats the other |
| GameConfig.OptionsListEachChoiceOnce | app.js:9 | the computer's draw list has three entries and holds each choice exactly once |
| Resolver.Resolve | app.js:194-206 | equal choices draw; the player wins exactly when the player's choice beats the computer's; the computer wins exactly when the computer's choice beats the player's; so exactly one outcome holds for every pair |
| Resolver.ResolveSwapsWithRoles | app.js:199-205 | swapping player and computer mirrors the outcome; for distinct a and b the player wins with (a, b) exactly when the computer wins with (b, a) |
| Resolver.Award | app.js:231-244 | a draw leaves the score unchanged; a decisive round adds exactly one point to the winner and none to the loser; neither score decreases |
| Resolver.ResultText | app.js:224-244 | each outcome is announced with a non-empty text |
| Resolver.ResultTextDistinguishesOutcomes | app.js:224-244 | different outcomes get different texts ("DRAW", "YOU WON", "YOU LOST") |
| Theme.InitialTheme | app.js:36 | with nothing stored, or an empty string stored, the theme starts as dark; a non-empty stored value is used as it is |
| Theme.Toggled | app.js:71 | after a toggle the theme is dark or light, and it is light exactly when it was dark |
| Theme.ToggleTwice | app.js:71 | toggling twice restores the theme exactly when it was dark or light; any other stored value ends up light |
| Session.Initial | app.js:30-37 | a new game has score (0, 0), is not animating and has no round scheduled |
| Session.Step | app.js:153-177 | the reference semantics that every `GameController` entry point is proved to follow (choice at lines 153-172, timer at 173-177, reset and theme buttons at 126 and 129): a choice while animating changes nothing; only a reset can lower a score; in a consistent state only the timer can remove a scheduled round; only the theme button changes the theme |
| Session.StepKeepsConsistent | app.js:153-177 | every event keeps the animation flag up exactly while a round is scheduled |
| Session.RunKeepsConsistent | app.js:153-177 | the same holds after any sequence of events |
| Session.ScoreCountsDecisiveRounds | app.js:199-244 | between resets, each score rises by exactly the number of rounds its side won in the run |
| Session.ScoreMonotoneBetweenResets | app.js:231-244 | between resets neither score decreases |
| Session.ChoicesWhileAnimatingIgnored | app.js:155 | any number of choices made while a round animates leave the whole state unchanged, including the captured round |
| Session.ScheduledRoundSurvivesUntilTimer | app.js:169-177 | once scheduled, a round stays captured until its timer fires; later choices do not replace it and a reset does not cancel it |
| Session.RoundsBoundedByChoices | app.js:155-177 | a run resolves at most one round per choice event, plus the round already scheduled at its start |
| Session.ThemeFollowsToggleParity | app.js:70-72 | starting from dark or light, the theme after a run depends only on whether the theme was toggled an even or odd number of times |
| Session.ResetDuringAnimationStillResolves | app.js:173-175 | a reset during an animation is followed by the pending round being resolved against the zeroed score, leaving a total of one for a decisive round |
| Session.FirstRoundExamples | app.js:194-244 | from a new game: rock against scissors gives (1, 0) and "YOU WON"; paper against paper gives (0, 0) and "DRAW"; scissors against rock gives (0, 1) and "YOU LOST" |
| Game.GameState.constructor | app.js:30-37 | the score starts at (0, 0), the flag is down, and the theme comes from the stored value or defaults to dark |
| Game.GameState.Reset | app.js:39-45 | both scores become 0 whatever they were; the animation flag and the theme are untouched |
| Game.GameState.ToggleTheme | app.js:70-72 | the theme becomes its toggle; the score and the flag are untouched |
| Game.GameController.constructor | app.js:103-108 | a new controller owns a fresh state object in the initial session state |
| Game.GameController.HandlePlayerChoice | app.js:153-172 | while animating nothing changes; otherwise the flag goes up and both choices are captured before the delay, with score and theme unchanged; this is one `Step` with a choice event |
| Game.GameController.FinishRound | app.js:173-177 | the captured round is resolved and its outcome added to the score, then the flag goes down and no round is pending; this is one `Step` with the timer event |
| Game.GameController.CompareChoices | app.js:194-206 | the score becomes `Award` of the old score and the outcome of the two choices |
| Game.GameController.HandlePlayerWin | app.js:231-235 | the player's score rises by one and the computer's is unchanged |
| Game.GameController.HandleComputerWin | app.js:240-244 | the computer's score rises by one and the player's is unchanged |
| Game.GameController.OnReset | app.js:126 | the reset button performs one `Step` with the reset event; a pending round stays pending |
| Game.GameController.OnToggleTheme | app.js:129 | the theme button performs one `Step` with the theme event |

## Left out

- DOM work: element caching (`DOM.init`), hand images and shake classes (`resetHands`, `updateHandImages`), result text and colour classes (`setResultText`), score display (`updateScoreDisplay`), the "..." and "Choose an option" labels, the theme button label, `initTheme` and all button, aria and keyboard listener setup. These are presentation only. The result texts are kept as `Resolver.ResultText`.
- `handleDraw` only writes the "DRAW" text. It is modelled as the empty draw branch of `CompareChoices`.
- Writing the theme to `localStorage` is external persistence. The stored value enters the model only as the optional argument of the constructors.
- Timer duration: the 1000 ms `setTimeout` delay is modelled as the explicit `FinishRound` step (`TimerFires` in `Session`), not as time.
- `getComputerChoice`: `Math.random` and the float multiply-and-floor are left out. The computer's draw is a parameter of `HandlePlayerChoice`. Only the draw list `Options` is modelled.
- Reading the player's choice from the button's label text is left out. The choice arrives as a `Choice`, so an unknown label cannot be expressed. In the source, such a label makes the rule lookup `GameConfig.RULES[playerChoice].beats` throw inside the timer callback (app.js:201). The line that lowers `isAnimating` (app.js:175) then never runs, so every later choice is ignored for good.
- Scores are unbounded `nat`s. JavaScript numbers stop counting exactly past 2^53, which is not modelled.
