/** The moves of Dragon, Wizard, Knight and the fixed "beats" table of the standard game. */
module Rules {

  /** A move: the three standard characters and the bonus-only druid. */
  datatype Move = Dragon | Knight | Wizard | Druid

  /** The one-letter code the game uses for a move. */
  function CodeChar(m: Move): (c: char) {
    match m
    case Dragon => 'd'
    case Knight => 'k'
    case Wizard => 'w'
    case Druid => 'r'
  }

  /** A move as the string value the game passes around. */
  function Code(m: Move): (s: string) {
    [CodeChar(m)]
  }

  /** The moves a player may choose in the standard phase. */
  const NormalMoves: seq<Move> := [Dragon, Knight, Wizard]

  /** The moves a player may choose in the bonus phase. */
  const BonusMoves: seq<Move> := [Dragon, Knight, Wizard, Druid]

  /** The rule table, keyed by move code: key = winner, value = loser. */
  const NormalRules: map<string, string> := map["d" := "k", "k" := "w", "w" := "d"]

  /** `a` beats `b` by the rule table (a lookup that finds the key). */
  predicate Beats(a: Move, b: Move) {
    Code(a) in NormalRules && NormalRules[Code(a)] == Code(b)
  }

  /** Distinct moves have distinct codes, so a code names one move. */
  lemma CodeInjective(a: Move, b: Move)
    ensures Code(a) == Code(b) <==> a == b
    ensures CodeChar(a) == CodeChar(b) <==> a == b
  {
    assert Code(a)[0] == CodeChar(a) && Code(b)[0] == CodeChar(b);
  }

  /** The table has exactly the standard moves as keys; the druid is not in it. */
  lemma RuleKeys()
    ensures forall m :: Code(m) in NormalRules <==> m in NormalMoves
    ensures forall m :: !Beats(Druid, m) && !Beats(m, Druid)
  {
    forall m ensures Code(m) in NormalRules <==> m in NormalMoves {
      match m
      case Dragon =>
      case Knight =>
      case Wizard =>
      case Druid => assert Code(Druid) == "r";
    }
    forall m ensures !Beats(Druid, m) && !Beats(m, Druid) {
      assert Code(Druid) == "r";
      match m
      case Dragon => assert NormalRules[Code(m)] == "k";
      case Knight => assert NormalRules[Code(m)] == "w";
      case Wizard => assert NormalRules[Code(m)] == "d";
      case Druid =>
    }
  }

  /**
   * The table is a cycle on the three standard moves: no move beats itself,
   * each beats exactly one standard move and is beaten by exactly one.
   */
  lemma RulesAreCyclic(a: Move)
    requires a in NormalMoves
    ensures !Beats(a, a)
    ensures exists b :: b in NormalMoves && Beats(a, b)
    ensures forall b, c :: Beats(a, b) && Beats(a, c) ==> b == c
    ensures exists b :: b in NormalMoves && Beats(b, a)
    ensures forall b, c :: Beats(b, a) && Beats(c, a) ==> b == c
  {
    forall b, c | Beats(a, b) && Beats(a, c) ensures b == c {
      CodeInjective(b, c);
    }
    forall b, c | Beats(b, a) && Beats(c, a) ensures b == c {
      RuleKeys();
    }
    match a
    case Dragon => assert Beats(Dragon, Knight) && Beats(Wizard, Dragon);
    case Knight => assert Beats(Knight, Wizard) && Beats(Dragon, Knight);
    case Wizard => assert Beats(Wizard, Dragon) && Beats(Knight, Wizard);
  }

  /**
   * For two standard moves exactly one of three holds: they are equal, the
   * first beats the second, or the second beats the first.
   */
  lemma Trichotomy(a: Move, b: Move)
    requires a in NormalMoves && b in NormalMoves
    ensures a == b || Beats(a, b) || Beats(b, a)
    ensures !(Beats(a, b) && Beats(b, a))
    ensures Beats(a, b) ==> a != b
  {
    match a
    case Dragon => assert NormalRules[Code(a)] == "k";
    case Knight => assert NormalRules[Code(a)] == "w";
    case Wizard => assert NormalRules[Code(a)] == "d";
  }
}
