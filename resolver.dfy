/** Resolving one round, and the effect of its outcome on the score. */
module Resolver {
  import opened GameConfig

  datatype Outcome = Draw | PlayerWin | ComputerWin

  /** The running score: decisive rounds won by each side since the last reset. */
  datatype Score = Score(player: nat, computer: nat)

  /** Decide a round: equal choices draw; otherwise the player wins when the
      rule table says the player's choice beats the computer's, and the
      computer wins in every other case, which is exactly when the computer's
      choice beats the player's. */
  function Resolve(player: Choice, computer: Choice): (o: Outcome)
    ensures o == Draw <==> player == computer
    ensures o == PlayerWin <==> Beats(player) == computer
    ensures o == ComputerWin <==> Beats(computer) == player
  {
    if player == computer then Draw
    else if Beats(player) == computer then PlayerWin
    else ComputerWin
  }

  /** The same outcome seen from the other side of the table. */
  function Mirror(o: Outcome): (m: Outcome)
    ensures m == Draw <==> o == Draw
    ensures m != o || o == Draw
  {
    match o
    case Draw => Draw
    case PlayerWin => ComputerWin
    case ComputerWin => PlayerWin
  }

  /** Swapping the two choices swaps the winner: for distinct choices the
      player wins with (a, b) exactly when the computer wins with (b, a). */
  lemma ResolveSwapsWithRoles(a: Choice, b: Choice)
    ensures Resolve(b, a) == Mirror(Resolve(a, b))
    ensures a != b ==> (Resolve(a, b) == PlayerWin <==> Resolve(b, a) == ComputerWin)
  {
  }

  /** The score after a round with outcome `o`: a draw changes nothing, a
      decisive round adds exactly one point to its winner and none to the loser. */
  function Award(s: Score, o: Outcome): (r: Score)
    ensures r.player >= s.player && r.computer >= s.computer
    ensures r.player + r.computer == s.player + s.computer + (if o == Draw then 0 else 1)
    ensures r.player > s.player <==> o == PlayerWin
    ensures r.computer > s.computer <==> o == ComputerWin
  {
    match o
    case Draw => s
    case PlayerWin => s.(player := s.player + 1)
    case ComputerWin => s.(computer := s.computer + 1)
  }

  /** The text shown for each outcome. */
  function ResultText(o: Outcome): (t: string)
    ensures t != ""
  {
    match o
    case Draw => "DRAW"
    case PlayerWin => "YOU WON"
    case ComputerWin => "YOU LOST"
  }

  /** Different outcomes are announced with different texts. */
  lemma ResultTextDistinguishesOutcomes(o1: Outcome, o2: Outcome)
    ensures ResultText(o1) == ResultText(o2) ==> o1 == o2
  {
  }
}
