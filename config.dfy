/** The static game configuration: the three choices, the order in which the
    computer draws them, and the rule table saying which choice each one beats. */
module GameConfig {

  datatype Choice = Rock | Paper | Scissors

  /** The list the computer's random index is taken from. */
  const Options: seq<Choice> := [Rock, Paper, Scissors]

  /** The rule table: each choice mapped to the one choice it beats. */
  const Rules: map<Choice, Choice> := map[Rock := Scissors, Paper := Rock, Scissors := Paper]

  /** The table has an entry for every choice, so a lookup never comes back undefined. */
  lemma RulesAreTotal(c: Choice)
    ensures c in Rules
  {
  }

  /** The choice that `c` beats, read from the rule table. No choice beats itself. */
  function Beats(c: Choice): (beaten: Choice)
    ensures beaten != c
  {
    RulesAreTotal(c);
    Rules[c]
  }

  /** Following the table three times comes back to the start and never
      earlier: the rules form a single 3-cycle. */
  lemma RulesFormThreeCycle(c: Choice)
    ensures Beats(c) != c
    ensures Beats(Beats(c)) != c && Beats(Beats(c)) != Beats(c)
    ensures Beats(Beats(Beats(c))) == c
  {
  }

  /** Every choice is beaten by exactly one choice. */
  lemma EachChoiceBeatenOnce(d: Choice)
    ensures exists c :: Beats(c) == d
    ensures forall a, b :: Beats(a) == d && Beats(b) == d ==> a == b
  {
    var c := match d case Rock => Paper case Paper => Scissors case Scissors => Rock;
    assert Beats(c) == d;
  }

  /** No pair of choices beat each other, and of two distinct choices one
      always beats the other: the table leaves no tie between different choices. */
  lemma BeatsIsAsymmetricAndConnected(a: Choice, b: Choice)
    ensures !(Beats(a) == b && Beats(b) == a)
    ensures a != b ==> Beats(a) == b || Beats(b) == a
  {
  }

  /** The computer's draw list has three entries and holds each choice exactly once. */
  lemma OptionsListEachChoiceOnce(c: Choice)
    ensures |Options| == 3
    ensures multiset(Options)[c] == 1
  {
  }
}
