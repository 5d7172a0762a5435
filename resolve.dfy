/**
 * The two round resolvers, on the string values the game passes them: which branch
 * a pair of moves takes, and what that branch does to the scores.
 */
module Resolve {
  import opened Rules

  /** The branch a battle ends in; the names say who gains. */
  datatype RoundCase = HumanWon | RobotWon | Tie | HumanDruid | RobotDruid | BothDruid

  /** The standard resolver either reaches a branch or fails on the rule lookup. */
  datatype Resolution = Resolved(roundCase: RoundCase) | KeyError(key: string)

  /** Changes to the human's points, the opponent's points and the tie counter. */
  datatype Delta = Delta(human: int, robot: int, ties: int)

  const NoChange := Delta(0, 0, 0)

  function Add(a: Delta, b: Delta): (d: Delta) {
    Delta(a.human + b.human, a.robot + b.robot, a.ties + b.ties)
  }

  /** What each branch adds to the scores. */
  function Points(c: RoundCase): (d: Delta) {
    match c
    case HumanWon => Delta(1, 0, 0)
    case RobotWon => Delta(0, 1, 0)
    case Tie => Delta(0, 0, 1)
    case HumanDruid => Delta(2, -2, 0)
    case RobotDruid => Delta(-2, 2, 0)
    case BothDruid => Delta(-2, -2, 0)
  }

  /** What a resolution does to the scores: a failed lookup happens before any update. */
  function Effect(r: Resolution): (d: Delta) {
    match r
    case Resolved(c) => Points(c)
    case KeyError(_) => NoChange
  }

  /** The same branch seen from the other side of the table. */
  function Mirror(c: RoundCase): (m: RoundCase) {
    match c
    case HumanWon => RobotWon
    case RobotWon => HumanWon
    case Tie => Tie
    case HumanDruid => RobotDruid
    case RobotDruid => HumanDruid
    case BothDruid => BothDruid
  }

  /**
   * The standard resolver: equal moves tie; otherwise the human's move is looked up
   * in the rule table, and the human wins when it maps to the opponent's move and
   * the opponent wins otherwise. The lookup fails for a human move that is not a key.
   */
  function StandardCase(pMove: string, rMove: string): (r: Resolution)
    ensures r.KeyError? ==> r.key == pMove && pMove != rMove && pMove !in NormalRules
    ensures r.Resolved? ==> r.roundCase in {HumanWon, RobotWon, Tie}
  {
    if pMove == rMove then Resolved(Tie)
    else if pMove !in NormalRules then KeyError(pMove)
    else if NormalRules[pMove] == rMove then Resolved(HumanWon)
    else Resolved(RobotWon)
  }

  /**
   * The bonus resolver: the druid cases first, then a tie on equal moves, then a
   * guarded lookup in the rule table; everything else is an opponent win.
   */
  function BonusCase(pMove: string, rMove: string): (c: RoundCase)
    ensures c in {HumanDruid, RobotDruid, BothDruid} <==> pMove == "r" || rMove == "r"
  {
    if pMove == "r" && rMove != "r" then HumanDruid
    else if pMove != "r" && rMove == "r" then RobotDruid
    else if pMove == "r" && rMove == "r" then BothDruid
    else if pMove == rMove then Tie
    else if pMove in NormalRules && NormalRules[pMove] == rMove then HumanWon
    else RobotWon
  }

  /**
   * A standard round between two standard moves never fails and raises exactly one
   * of the three counters by one: the tie counter when the moves are equal, the
   * human's points when the human's move beats the opponent's, and the opponent's
   * points when the opponent's move beats the human's.
   */
  lemma StandardRoundScoresOnce(a: Move, b: Move)
    requires a in NormalMoves && b in NormalMoves
    ensures StandardCase(Code(a), Code(b)).Resolved?
    ensures var d := Effect(StandardCase(Code(a), Code(b)));
      && d in {Delta(1, 0, 0), Delta(0, 1, 0), Delta(0, 0, 1)}
      && (d.ties == 1 <==> a == b)
      && (d.human == 1 <==> Beats(a, b))
      && (d.robot == 1 <==> Beats(b, a))
  {
    Trichotomy(a, b);
    CodeInjective(a, b);
    RuleKeys();
  }

  /** Swapping the two standard moves swaps the winner; equal moves stay a tie. */
  lemma StandardSwap(a: Move, b: Move)
    requires a in NormalMoves && b in NormalMoves
    ensures StandardCase(Code(b), Code(a)) == Resolved(Mirror(StandardCase(Code(a), Code(b)).roundCase))
  {
    Trichotomy(a, b);
    CodeInjective(a, b);
    RuleKeys();
  }

  /** The druid branches: +2/-2 to the side that alone plays druid, -2 to both when both do; ties untouched. */
  lemma BonusDruidSwings(a: Move, b: Move)
    ensures a == Druid && b != Druid ==> Points(BonusCase(Code(a), Code(b))) == Delta(2, -2, 0)
    ensures a != Druid && b == Druid ==> Points(BonusCase(Code(a), Code(b))) == Delta(-2, 2, 0)
    ensures a == Druid && b == Druid ==> Points(BonusCase(Code(a), Code(b))) == Delta(-2, -2, 0)
  {
    CodeInjective(a, Druid);
    CodeInjective(b, Druid);
  }

  /**
   * Without a druid the bonus resolver does what the standard one does; where the
   * standard lookup would fail, the bonus resolver's guard gives the round to the opponent.
   */
  lemma BonusWithoutDruidIsStandard(pMove: string, rMove: string)
    requires pMove != "r" && rMove != "r"
    ensures StandardCase(pMove, rMove).Resolved? ==> BonusCase(pMove, rMove) == StandardCase(pMove, rMove).roundCase
    ensures StandardCase(pMove, rMove).KeyError? ==> BonusCase(pMove, rMove) == RobotWon
  {
  }

  /** Without a druid a bonus battle raises exactly one of the three counters by one, whatever the strings. */
  lemma BonusWithoutDruidScoresOnce(pMove: string, rMove: string)
    requires pMove != "r" && rMove != "r"
    ensures Points(BonusCase(pMove, rMove)) in {Delta(1, 0, 0), Delta(0, 1, 0), Delta(0, 0, 1)}
    ensures Points(BonusCase(pMove, rMove)).ties == 1 <==> pMove == rMove
  {
  }

  /**
   * A human bonus move that is neither a table key nor the druid loses the battle:
   * the opponent gains one point, or two by the druid branch when it plays druid.
   */
  lemma NonMoveLosesBonusBattle(pMove: string, b: Move)
    requires pMove !in NormalRules && pMove != "r"
    ensures BonusCase(pMove, Code(b)) == (if b == Druid then RobotDruid else RobotWon)
  {
    RuleKeys();
    assert Code(Druid) == "r";
    CodeInjective(b, Druid);
  }

  /** For standard moves the bonus resolver changes the scores exactly as the standard one does. */
  lemma BonusAgreesWithStandard(a: Move, b: Move)
    requires a in NormalMoves && b in NormalMoves
    ensures Points(BonusCase(Code(a), Code(b))) == Effect(StandardCase(Code(a), Code(b)))
  {
    assert Code(a) != "r" && Code(b) != "r";
    BonusWithoutDruidIsStandard(Code(a), Code(b));
    StandardRoundScoresOnce(a, b);
  }

  /** Swapping the two bonus moves mirrors the branch, over all sixteen pairs. */
  lemma BonusSwap(a: Move, b: Move)
    ensures BonusCase(Code(b), Code(a)) == Mirror(BonusCase(Code(a), Code(b)))
  {
    CodeInjective(a, b);
    if a != Druid && b != Druid {
      BonusAgreesWithStandard(a, b);
      BonusAgreesWithStandard(b, a);
      StandardSwap(a, b);
      assert Code(a) != "r" && Code(b) != "r";
      BonusWithoutDruidIsStandard(Code(a), Code(b));
      BonusWithoutDruidIsStandard(Code(b), Code(a));
      StandardRoundScoresOnce(a, b);
      StandardRoundScoresOnce(b, a);
    }
  }

  /** The mirrored branch gives the same changes with the two players' parts swapped. */
  lemma MirrorSwapsPoints(c: RoundCase)
    ensures Points(Mirror(c)) == Delta(Points(c).robot, Points(c).human, Points(c).ties)
  {
  }
}
