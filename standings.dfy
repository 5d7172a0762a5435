/** Who wins a phase, and whether the standard phase unlocks the bonus phase. */
module Standings {

  /** The possible verdicts at the end of a phase. */
  datatype Standing = Human | Sally | Bob | BobAndSally | NoOne

  /**
   * The standard phase: the player with strictly more points wins, equal points
   * make no winner.
   */
  function StandardFinal(p: int, s: int): (w: Standing)
    ensures w in {Human, Sally, NoOne}
    ensures w == Human <==> p > s
    ensures w == Sally <==> s > p
    ensures w == NoOne <==> p == s
  {
    if s > p then Sally
    else if p > s then Human
    else NoOne
  }

  /**
   * The bonus phase: a single player is named only with strictly more points than
   * both others; Bob and Sally win together exactly when they are level and ahead
   * of the human; no one wins exactly when the human holds the top score and
   * shares it.
   */
  function BonusFinal(p: int, s: int, b: int): (w: Standing)
    ensures w == Sally <==> s > p && s > b
    ensures w == Bob <==> b > s && b > p
    ensures w == Human <==> p > s && p > b
    ensures w == BobAndSally <==> s == b && s > p
    ensures w == NoOne <==> p >= s && p >= b && (p == s || p == b)
  {
    if s > p && s > b then Sally
    else if b > s && b > p then Bob
    else if p > s && p > b then Human
    else if s > p && b > p then BobAndSally
    else NoOne
  }

  /** The name the game records for a verdict. */
  function WinnerName(w: Standing, humanName: string): (name: string) {
    match w
    case Human => humanName
    case Sally => "Sally"
    case Bob => "Bob"
    case BobAndSally => "Bob and Sally"
    case NoOne => "no one"
  }

  /**
   * The bonus gate as written: the recorded winner's name is compared with the
   * human's name.
   */
  predicate BonusUnlockedAsWritten(humanName: string, p: int, s: int): (r: bool)
    ensures p > s ==> r
    ensures r ==> p > s || humanName == "Sally" || humanName == "no one"
  {
    WinnerName(StandardFinal(p, s), humanName) == humanName
  }

  /**
   * The written gate opens when the human wins, but also when Sally wins a game
   * against a human called "Sally" and when a human called "no one" ties.
   */
  lemma AsWrittenGateOpens(humanName: string, p: int, s: int)
    ensures BonusUnlockedAsWritten(humanName, p, s) <==>
      p > s || (s > p && humanName == "Sally") || (p == s && humanName == "no one")
  {
  }

  /** A human called "Sally" who loses the standard phase is let into the bonus phase. */
  lemma LosingSallyUnlocksBonus()
    ensures StandardFinal(0, 1) == Sally && BonusUnlockedAsWritten("Sally", 0, 1)
  {
  }

  /** The bonus gate as intended: it opens exactly when the human won the standard phase. */
  function BonusUnlocked(p: int, s: int): (r: bool)
    ensures r <==> p > s
  {
    StandardFinal(p, s) == Human
  }

  /** For every other name the written gate and the intended one agree. */
  lemma GatesAgreeForOtherNames(humanName: string, p: int, s: int)
    requires humanName != "Sally" && humanName != "no one"
    ensures BonusUnlockedAsWritten(humanName, p, s) == BonusUnlocked(p, s)
  {
    AsWrittenGateOpens(humanName, p, s);
  }
}
