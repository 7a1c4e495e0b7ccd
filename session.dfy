/** The game session as a pure state machine driven by the events of the
    page's single event loop: a choice button, the animation timer firing,
    the reset button and the theme button. The classes in module Game are
    proved to follow `Step`; the lemmas here say what any run of events does. */
module Session {
  import opened Wrappers
  import opened GameConfig
  import opened Resolver
  import Theme

  /** The two choices captured when a round starts, resolved when its timer fires. */
  datatype Round = Round(player: Choice, computer: Choice)

  /** Everything the game logic keeps: the score, the animation flag, the
      round waiting for its timer (if any) and the theme. */
  datatype State = State(score: Score, animating: bool, pending: Option<Round>, theme: string)

  datatype Event =
    | Choose(player: Choice, computer: Choice)  // a choice button, with the computer's draw
    | TimerFires                                // the animation delay has elapsed
    | ResetPressed
    | ThemeToggled

  /** The animation flag is up exactly while a round is waiting for its timer. */
  predicate Consistent(s: State) {
    s.animating <==> s.pending.Some?
  }

  function Initial(stored: Option<string>): (s: State)
    ensures Consistent(s) && !s.animating
    ensures s.score == Score(0, 0)
  {
    State(Score(0, 0), false, None, Theme.InitialTheme(stored))
  }

  /** One event. A choice is ignored while animating; otherwise it raises the
      flag and captures both choices. The timer resolves the captured round,
      adds its outcome to the score and lowers the flag (with no round
      scheduled there is no timer, so nothing happens). Reset zeroes the
      score and nothing else. The theme button only flips the theme. */
  function Step(s: State, e: Event): (r: State)
    ensures s.animating && e.Choose? ==> r == s
    ensures !e.ResetPressed? ==> r.score.player >= s.score.player && r.score.computer >= s.score.computer
    ensures Consistent(s) && !e.TimerFires? && s.pending.Some? ==> r.pending == s.pending
    ensures !e.ThemeToggled? ==> r.theme == s.theme
  {
    match e
    case Choose(p, c) =>
      if s.animating then s else s.(animating := true, pending := Some(Round(p, c)))
    case TimerFires =>
      if s.pending.None? then s
      else
        var r := s.pending.value;
        s.(score := Award(s.score, Resolve(r.player, r.computer)), animating := false, pending := None)
    case ResetPressed =>
      s.(score := Score(0, 0))
    case ThemeToggled =>
      s.(theme := Theme.Toggled(s.theme))
  }

  /** The state after a run of events, in order. */
  function Run(s: State, es: seq<Event>): State
    decreases |es|
  {
    if es == [] then s else Run(Step(s, es[0]), es[1..])
  }

  /** The outcomes of the rounds resolved during a run, in order. */
  function Outcomes(s: State, es: seq<Event>): seq<Outcome>
    decreases |es|
  {
    if es == [] then []
    else
      var here := if es[0].TimerFires? && s.pending.Some?
                  then [Resolve(s.pending.value.player, s.pending.value.computer)]
                  else [];
      here + Outcomes(Step(s, es[0]), es[1..])
  }

  /** Number of choice events in a run (accepted or not). */
  function Chooses(es: seq<Event>): nat
    decreases |es|
  {
    if es == [] then 0 else (if es[0].Choose? then 1 else 0) + Chooses(es[1..])
  }

  /** Number of theme-button events in a run. */
  function Toggles(es: seq<Event>): nat
    decreases |es|
  {
    if es == [] then 0 else (if es[0].ThemeToggled? then 1 else 0) + Toggles(es[1..])
  }

  predicate NoReset(es: seq<Event>) {
    forall i :: 0 <= i < |es| ==> !es[i].ResetPressed?
  }

  predicate NoTimer(es: seq<Event>) {
    forall i :: 0 <= i < |es| ==> !es[i].TimerFires?
  }

  predicate OnlyChoices(es: seq<Event>) {
    forall i :: 0 <= i < |es| ==> es[i].Choose?
  }

  /** Every event keeps the flag and the scheduled round in step. */
  lemma StepKeepsConsistent(s: State, e: Event)
    requires Consistent(s)
    ensures Consistent(Step(s, e))
  {
  }

  /** ... and so does every run of events. */
  lemma {:induction false} RunKeepsConsistent(s: State, es: seq<Event>)
    requires Consistent(s)
    ensures Consistent(Run(s, es))
    decreases |es|
  {
    if es != [] {
      StepKeepsConsistent(s, es[0]);
      RunKeepsConsistent(Step(s, es[0]), es[1..]);
    }
  }

  /** Between resets each score goes up by exactly one per round its side
      won, and by nothing else: draws, ignored choices and theme changes
      leave it alone. */
  lemma {:induction false} ScoreCountsDecisiveRounds(s: State, es: seq<Event>)
    requires NoReset(es)
    ensures Run(s, es).score.player == s.score.player + multiset(Outcomes(s, es))[PlayerWin]
    ensures Run(s, es).score.computer == s.score.computer + multiset(Outcomes(s, es))[ComputerWin]
    decreases |es|
  {
    if es != [] {
      assert NoReset(es[1..]) by {
        forall i | 0 <= i < |es[1..]| ensures !es[1..][i].ResetPressed? {
          assert es[1..][i] == es[i + 1];
        }
      }
      ScoreCountsDecisiveRounds(Step(s, es[0]), es[1..]);
    }
  }

  /** Consequence: between resets neither score ever goes down. */
  lemma ScoreMonotoneBetweenResets(s: State, es: seq<Event>)
    requires NoReset(es)
    ensures Run(s, es).score.player >= s.score.player
    ensures Run(s, es).score.computer >= s.score.computer
  {
    ScoreCountsDecisiveRounds(s, es);
  }

  /** Choices made while a round is animating are ignored: the state,
      including the captured round, stays exactly as it was. */
  lemma {:induction false} ChoicesWhileAnimatingIgnored(s: State, es: seq<Event>)
    requires s.animating
    requires OnlyChoices(es)
    ensures Run(s, es) == s
    decreases |es|
  {
    if es != [] {
      assert es[0].Choose?;
      assert OnlyChoices(es[1..]) by {
        forall i | 0 <= i < |es[1..]| ensures es[1..][i].Choose? {
          assert es[1..][i] == es[i + 1];
        }
      }
      ChoicesWhileAnimatingIgnored(Step(s, es[0]), es[1..]);
    }
  }

  /** Once a round is scheduled, nothing but its timer removes it: later
      choices do not replace it and a reset does not cancel it. */
  lemma {:induction false} ScheduledRoundSurvivesUntilTimer(s: State, es: seq<Event>, r: Round)
    requires Consistent(s) && s.pending == Some(r)
    requires NoTimer(es)
    ensures Run(s, es).pending == Some(r) && Run(s, es).animating
    decreases |es|
  {
    if es != [] {
      assert !es[0].TimerFires?;
      assert NoTimer(es[1..]) by {
        forall i | 0 <= i < |es[1..]| ensures !es[1..][i].TimerFires? {
          assert es[1..][i] == es[i + 1];
        }
      }
      ScheduledRoundSurvivesUntilTimer(Step(s, es[0]), es[1..], r);
    }
  }

  /** At most one round is resolved per choice, plus the one already
      scheduled: however fast the buttons are pressed, a burst of choices
      during an animation adds no extra rounds. */
  lemma {:induction false} RoundsBoundedByChoices(s: State, es: seq<Event>)
    requires Consistent(s)
    ensures |Outcomes(s, es)| + (if Run(s, es).animating then 1 else 0)
            <= (if s.animating then 1 else 0) + Chooses(es)
    decreases |es|
  {
    if es != [] {
      StepKeepsConsistent(s, es[0]);
      RoundsBoundedByChoices(Step(s, es[0]), es[1..]);
    }
  }

  /** The theme after a run depends only on how often the theme button was
      pressed, provided it started as one of the two themes the game writes. */
  lemma {:induction false} ThemeFollowsToggleParity(s: State, es: seq<Event>)
    requires s.theme == Theme.Dark || s.theme == Theme.Light
    ensures Run(s, es).theme == if Toggles(es) % 2 == 0 then s.theme else Theme.Toggled(s.theme)
    decreases |es|
  {
    if es != [] {
      Theme.ToggleTwice(s.theme);
      ThemeFollowsToggleParity(Step(s, es[0]), es[1..]);
    }
  }

  /** A reset pressed while a round is animating does not cancel it: when the
      timer fires the round is still resolved against the zeroed score, so a
      decisive round leaves a score of one right after the reset. */
  lemma ResetDuringAnimationStillResolves(s: State, p: Choice, c: Choice)
    requires Consistent(s) && !s.animating
    ensures Run(s, [Choose(p, c), ResetPressed, TimerFires]).score == Award(Score(0, 0), Resolve(p, c))
    ensures p != c ==>
      Run(s, [Choose(p, c), ResetPressed, TimerFires]).score.player
      + Run(s, [Choose(p, c), ResetPressed, TimerFires]).score.computer == 1
  {
    var s1 := Step(s, Choose(p, c));
    var s2 := Step(s1, ResetPressed);
    var s3 := Step(s2, TimerFires);
    assert Run(s, [Choose(p, c), ResetPressed, TimerFires]) == s3 by {
      assert [Choose(p, c), ResetPressed, TimerFires][1..] == [ResetPressed, TimerFires];
      assert [ResetPressed, TimerFires][1..] == [TimerFires];
      assert [TimerFires][1..] == [];
    }
  }

  /** The three worked rounds from a fresh game: rock against scissors wins,
      paper against paper draws, scissors against rock loses, each announced
      with its text. */
  lemma FirstRoundExamples(stored: Option<string>)
    ensures Run(Initial(stored), [Choose(Rock, Scissors), TimerFires]).score == Score(1, 0)
    ensures Run(Initial(stored), [Choose(Paper, Paper), TimerFires]).score == Score(0, 0)
    ensures Run(Initial(stored), [Choose(Scissors, Rock), TimerFires]).score == Score(0, 1)
    ensures ResultText(Resolve(Rock, Scissors)) == "YOU WON"
    ensures ResultText(Resolve(Paper, Paper)) == "DRAW"
    ensures ResultText(Resolve(Scissors, Rock)) == "YOU LOST"
  {
    assert [Choose(Rock, Scissors), TimerFires][1..] == [TimerFires];
    assert [Choose(Paper, Paper), TimerFires][1..] == [TimerFires];
    assert [Choose(Scissors, Rock), TimerFires][1..] == [TimerFires];
    assert [TimerFires][1..] == [];
  }
}
