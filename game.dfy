/**
 * The game's state and flow: players whose points change in place, the game object
 * with its tie counter and round counters, the resolvers as methods that update
 * them, the round loops of both phases, and a whole game from setup to the last verdict.
 */
module Game {
  import opened Wrappers
  import opened Rules
  import opened MoveInput
  import opened Resolve
  import opened Standings

  /** The two moves of one standard round: the human's and Sally's. */
  datatype StandardMoves = StandardMoves(human: Move, sally: Move)

  /**
   * The four moves of one bonus round: one battle against Sally, one against Bob.
   * The human's moves are the strings the bonus prompt returns, which need not be
   * single codes; the robots draw theirs from the bonus moves.
   */
  datatype BonusRoundMoves = BonusRoundMoves(humanVsSally: string, sally: Move, humanVsBob: string, bob: Move)

  /** Changes to the three players' points and the tie counter in the bonus phase. */
  datatype BonusScore = BonusScore(human: int, sally: int, bob: int, ties: int)

  predicate IsStandard(m: StandardMoves) {
    m.human in NormalMoves && m.sally in NormalMoves
  }

  predicate HasNoDruid(m: BonusRoundMoves) {
    m.humanVsSally != "r" && m.sally != Druid && m.humanVsBob != "r" && m.bob != Druid
  }

  function StandardEffect(m: StandardMoves): (d: Delta) {
    Effect(StandardCase(Code(m.human), Code(m.sally)))
  }

  /** Score changes over a run of standard rounds, from the first round on. */
  function StandardTotals(ms: seq<StandardMoves>): (t: Delta) {
    if ms == [] then NoChange
    else Add(StandardTotals(ms[..|ms| - 1]), StandardEffect(ms[|ms| - 1]))
  }

  /** Score changes of one bonus round: two independent battles sharing the tie counter. */
  function BonusRoundScore(m: BonusRoundMoves): (score: BonusScore) {
    var vsSally := Points(BonusCase(m.humanVsSally, Code(m.sally)));
    var vsBob := Points(BonusCase(m.humanVsBob, Code(m.bob)));
    BonusScore(vsSally.human + vsBob.human, vsSally.robot, vsBob.robot, vsSally.ties + vsBob.ties)
  }

  function BonusTotals(ms: seq<BonusRoundMoves>): (t: BonusScore) {
    if ms == [] then BonusScore(0, 0, 0, 0)
    else
      var t := BonusTotals(ms[..|ms| - 1]);
      var r := BonusRoundScore(ms[|ms| - 1]);
      BonusScore(t.human + r.human, t.sally + r.sally, t.bob + r.bob, t.ties + r.ties)
  }

  /**
   * Over standard rounds every counter is non-negative and the three counters
   * together grow by exactly one per round.
   */
  lemma {:induction false} StandardTotalsCountRounds(ms: seq<StandardMoves>)
    requires forall i :: 0 <= i < |ms| ==> IsStandard(ms[i])
    ensures var t := StandardTotals(ms);
      t.human >= 0 && t.robot >= 0 && t.ties >= 0 && t.human + t.robot + t.ties == |ms|
  {
    if ms != [] {
      var last := ms[|ms| - 1];
      StandardTotalsCountRounds(ms[..|ms| - 1]);
      StandardRoundScoresOnce(last.human, last.sally);
    }
  }

  /**
   * In a bonus phase without druids, every counter is non-negative and the four
   * counters together grow by exactly two per round (one per battle).
   */
  lemma {:induction false} BonusTotalsWithoutDruid(ms: seq<BonusRoundMoves>)
    requires forall i :: 0 <= i < |ms| ==> HasNoDruid(ms[i])
    ensures var t := BonusTotals(ms);
      t.human >= 0 && t.sally >= 0 && t.bob >= 0 && t.ties >= 0 && t.human + t.sally + t.bob + t.ties == 2 * |ms|
  {
    if ms != [] {
      var last := ms[|ms| - 1];
      BonusTotalsWithoutDruid(ms[..|ms| - 1]);
      CodeInjective(last.sally, Druid);
      CodeInjective(last.bob, Druid);
      BonusWithoutDruidScoresOnce(last.humanVsSally, Code(last.sally));
      BonusWithoutDruidScoresOnce(last.humanVsBob, Code(last.bob));
    }
  }

  /**
   * An empty input passes the written move check in the standard phase and then
   * makes the standard resolver fail its rule lookup against every opponent move.
   */
  lemma AcceptedEmptyMoveFailsLookup(q: Move)
    requires q in NormalMoves
    ensures ChooseMoveAsWritten("", NormalMoves) == Some("")
    ensures StandardCase("", Code(q)) == KeyError("")
  {
    AsWrittenAcceptsNonMoves();
  }

  /**
   * The inputs "", "kw" and "rD" pass the written bonus prompt and then lose their
   * battle: the opponent gains one point, or two when it plays druid.
   */
  lemma AcceptedNonMovesLoseBonusBattle(q: Move)
    ensures ChooseMoveAsWritten("", BonusMoves) == Some("") && ChooseMoveAsWritten("kw", BonusMoves) == Some("kw")
    ensures ChooseMoveAsWritten("rD", BonusMoves) == Some("rd")
    ensures forall s :: s in {"", "kw", "rd"} ==>
      Points(BonusCase(s, Code(q))) == if q == Druid then Delta(-2, 2, 0) else Delta(0, 1, 0)
  {
    AsWrittenAcceptsNonMovesInBonus();
    NonMoveLosesBonusBattle("", q);
    NonMoveLosesBonusBattle("kw", q);
    NonMoveLosesBonusBattle("rd", q);
  }

  /**
   * A one-round game whose single round the human wins by the rule table (dragon
   * against knight, say): one point to the human, the human wins the standard
   * phase and the bonus phase opens, by the written gate whatever the human's name.
   */
  lemma OneWonRoundUnlocksBonus(a: Move, b: Move, name: string)
    requires a in NormalMoves && b in NormalMoves && Beats(a, b)
    ensures var t := StandardTotals([StandardMoves(a, b)]);
      && t == Delta(1, 0, 0)
      && StandardFinal(t.human, t.robot) == Human
      && BonusUnlocked(t.human, t.robot)
      && BonusUnlockedAsWritten(name, t.human, t.robot)
  {
    var ms := [StandardMoves(a, b)];
    StandardRoundScoresOnce(a, b);
    Trichotomy(a, b);
    assert ms[..0] == [];
  }

  /** Equal moves are a tie, whatever the move. */
  lemma EqualMovesTie(m: StandardMoves)
    requires m.human == m.sally
    ensures StandardEffect(m) == Delta(0, 0, 1)
  {
  }

  /** Rounds that are all ties (equal moves) give one tie per round and no points. */
  lemma {:induction false} TiedRoundsCountTies(ms: seq<StandardMoves>)
    requires forall i :: 0 <= i < |ms| ==> ms[i].human == ms[i].sally
    ensures StandardTotals(ms) == Delta(0, 0, |ms|)
  {
    if ms != [] {
      var init, last := ms[..|ms| - 1], ms[|ms| - 1];
      TiedRoundsCountTies(init);
      EqualMovesTie(last);
      var t := StandardTotals(init);
      assert t == Delta(0, 0, |ms| - 1);
    }
  }

  /**
   * After rounds that are all ties the standard phase has no winner, so the intended
   * gate stays shut; the written gate opens only for a human called "no one".
   */
  lemma TiedRoundsLockBonus(ms: seq<StandardMoves>, name: string)
    requires forall i :: 0 <= i < |ms| ==> ms[i].human == ms[i].sally
    ensures var t := StandardTotals(ms);
      && StandardFinal(t.human, t.robot) == NoOne
      && !BonusUnlocked(t.human, t.robot)
      && (BonusUnlockedAsWritten(name, t.human, t.robot) <==> name == "no one")
  {
    TiedRoundsCountTies(ms);
    var t := StandardTotals(ms);
    AsWrittenGateOpens(name, t.human, t.robot);
  }

  /** A bonus round: druid against Sally's dragon, knight against Bob's wizard. */
  lemma DruidAndKnightRound()
    ensures BonusRoundScore(BonusRoundMoves("r", Dragon, "k", Wizard)) == BonusScore(3, -2, 0, 0)
  {
  }

  /** A participant: a name and a score that the game changes in place. */
  class Player {
    const name: string
    var points: int

    constructor (name: string)
      ensures this.name == name && points == 0
    {
      this.name := name;
      points := 0;
    }

    method AddPoints(pointsToAdd: int)
      modifies this`points
      ensures points == old(points) + pointsToAdd
    {
      points := points + pointsToAdd;
    }

    method ResetPoints()
      modifies this`points
      ensures points == 0
    {
      points := 0;
    }
  }

  /** The game controller: the players, the tie counter, the recorded winner and the round counters. */
  class DragonWizardKnight {
    var player: Player?
    var sally: Player?
    var bob: Player?
    var tiePoints: int
    var winnerFinal: string
    var currentRound: int
    var roundsTotal: int

    /** The human and Sally exist and are different objects; Sally is called "Sally". */
    ghost predicate HasPlayers()
      reads this
    {
      player != null && sally != null && player != sally && sally.name == "Sally"
    }

    /** The human, Sally and Bob exist and are three different objects. */
    ghost predicate HasBonusPlayers()
      reads this
    {
      HasPlayers() && bob != null && bob != player && bob != sally && bob.name == "Bob"
    }

    constructor ()
      ensures player == null && sally == null && bob == null
      ensures tiePoints == 0 && winnerFinal == "" && currentRound == 0 && roundsTotal == 0
    {
      player, sally, bob := null, null, null;
      tiePoints, winnerFinal, currentRound, roundsTotal := 0, "", 0, 0;
    }

    /** Resolves a standard battle and updates exactly the counter of its branch. */
    method GetRoundWinner(pMove: string, rMove: string, human: Player, robot: Player) returns (res: Resolution)
      requires human != robot
      modifies this`tiePoints, human`points, robot`points
      ensures res == StandardCase(pMove, rMove)
      ensures human.points == old(human.points) + Effect(res).human
      ensures robot.points == old(robot.points) + Effect(res).robot
      ensures tiePoints == old(tiePoints) + Effect(res).ties
    {
      if pMove == rMove {
        res := Resolved(Tie);
        tiePoints := tiePoints + 1;
      } else if pMove !in NormalRules {
        res := KeyError(pMove);
      } else if NormalRules[pMove] == rMove {
        res := Resolved(HumanWon);
        human.AddPoints(1);
      } else {
        res := Resolved(RobotWon);
        robot.AddPoints(1);
      }
    }

    /** One standard round: the round counter advances and Sally's battle is resolved. */
    method PlayStandardRound(m: StandardMoves)
      requires HasPlayers() && IsStandard(m)
      modifies this`currentRound, this`tiePoints, player`points, sally`points
      ensures currentRound == old(currentRound) + 1
      ensures player.points == old(player.points) + StandardEffect(m).human
      ensures sally.points == old(sally.points) + StandardEffect(m).robot
      ensures tiePoints == old(tiePoints) + StandardEffect(m).ties
    {
      currentRound := currentRound + 1;
      var res := GetRoundWinner(Code(m.human), Code(m.sally), player, sally);
    }

    /** The standard loop: one round per counted round, each with its moves. */
    method PlayStandardRounds(moves: seq<StandardMoves>)
      requires HasPlayers() && |moves| == roundsTotal
      requires forall i :: 0 <= i < |moves| ==> IsStandard(moves[i])
      modifies this`currentRound, this`tiePoints, player`points, sally`points
      ensures currentRound == old(currentRound) + roundsTotal
      ensures player.points == old(player.points) + StandardTotals(moves).human
      ensures sally.points == old(sally.points) + StandardTotals(moves).robot
      ensures tiePoints == old(tiePoints) + StandardTotals(moves).ties
    {
      for i := 0 to roundsTotal
        invariant currentRound == old(currentRound) + i
        invariant player.points == old(player.points) + StandardTotals(moves[..i]).human
        invariant sally.points == old(sally.points) + StandardTotals(moves[..i]).robot
        invariant tiePoints == old(tiePoints) + StandardTotals(moves[..i]).ties
      {
        PlayStandardRound(moves[i]);
        assert moves[..i + 1][..i] == moves[..i];
      }
      assert moves[..|moves|] == moves;
    }

    /** Resolves a bonus battle and updates the points and the tie counter of its branch. */
    method GetBonusWinner(pMove: string, rMove: string, human: Player, robot: Player) returns (c: RoundCase)
      requires human != robot
      modifies this`tiePoints, human`points, robot`points
      ensures c == BonusCase(pMove, rMove)
      ensures human.points == old(human.points) + Points(c).human
      ensures robot.points == old(robot.points) + Points(c).robot
      ensures tiePoints == old(tiePoints) + Points(c).ties
    {
      if pMove == "r" && rMove != "r" {
        c := HumanDruid;
        human.AddPoints(2);
        robot.AddPoints(-2);
      } else if pMove != "r" && rMove == "r" {
        c := RobotDruid;
        human.AddPoints(-2);
        robot.AddPoints(2);
      } else if pMove == "r" && rMove == "r" {
        c := BothDruid;
        human.AddPoints(-2);
        robot.AddPoints(-2);
      } else if pMove == rMove {
        c := Tie;
        tiePoints := tiePoints + 1;
      } else if pMove in NormalRules && NormalRules[pMove] == rMove {
        c := HumanWon;
        human.AddPoints(1);
      } else {
        c := RobotWon;
        robot.AddPoints(1);
      }
    }

    /** One bonus round: the counter advances, then the battle against Sally and the one against Bob. */
    method PlayBonusRound(m: BonusRoundMoves)
      requires HasBonusPlayers()
      modifies this`currentRound, this`tiePoints, player`points, sally`points, bob`points
      ensures currentRound == old(currentRound) + 1
      ensures player.points == old(player.points) + BonusRoundScore(m).human
      ensures sally.points == old(sally.points) + BonusRoundScore(m).sally
      ensures bob.points == old(bob.points) + BonusRoundScore(m).bob
      ensures tiePoints == old(tiePoints) + BonusRoundScore(m).ties
    {
      currentRound := currentRound + 1;
      var vsSally := GetBonusWinner(m.humanVsSally, Code(m.sally), player, sally);
      var vsBob := GetBonusWinner(m.humanVsBob, Code(m.bob), player, bob);
    }

    /** The bonus loop: one bonus round per counted round. */
    method PlayBonusRounds(moves: seq<BonusRoundMoves>)
      requires HasBonusPlayers() && |moves| == roundsTotal
      modifies this`currentRound, this`tiePoints, player`points, sally`points, bob`points
      ensures currentRound == old(currentRound) + roundsTotal
      ensures player.points == old(player.points) + BonusTotals(moves).human
      ensures sally.points == old(sally.points) + BonusTotals(moves).sally
      ensures bob.points == old(bob.points) + BonusTotals(moves).bob
      ensures tiePoints == old(tiePoints) + BonusTotals(moves).ties
    {
      for i := 0 to roundsTotal
        invariant currentRound == old(currentRound) + i
        invariant player.points == old(player.points) + BonusTotals(moves[..i]).human
        invariant sally.points == old(sally.points) + BonusTotals(moves[..i]).sally
        invariant bob.points == old(bob.points) + BonusTotals(moves[..i]).bob
        invariant tiePoints == old(tiePoints) + BonusTotals(moves[..i]).ties
      {
        PlayBonusRound(moves[i]);
        assert moves[..i + 1][..i] == moves[..i];
      }
      assert moves[..|moves|] == moves;
    }

    /**
     * The verdict of a phase from the current points. After the standard phase the
     * winner's name is recorded; after the bonus phase nothing is recorded.
     */
    method GetFinalWinner(isBonusRound: bool) returns (w: Standing)
      requires HasPlayers()
      requires isBonusRound ==> bob != null
      modifies this`winnerFinal
      ensures !isBonusRound ==> w == StandardFinal(player.points, sally.points) && winnerFinal == WinnerName(w, player.name)
      ensures isBonusRound ==> w == BonusFinal(player.points, sally.points, bob.points) && winnerFinal == old(winnerFinal)
    {
      var p := player.points;
      var s := sally.points;
      if !isBonusRound {
        if s > p {
          w := Sally;
          winnerFinal := sally.name;
        } else if p > s {
          w := Human;
          winnerFinal := player.name;
        } else {
          w := NoOne;
          winnerFinal := "no one";
        }
      } else {
        var b := bob.points;
        if s > p && s > b {
          w := Sally;
        } else if b > s && b > p {
          w := Bob;
        } else if p > s && p > b {
          w := Human;
        } else if s > p && b > p {
          w := BobAndSally;
        } else {
          w := NoOne;
        }
      }
    }

    /**
     * Entering the bonus phase: the human's and Sally's points and the tie counter go
     * back to zero, Bob joins, and the new round count starts from round zero.
     */
    method StartBonusPhase(rounds: nat)
      requires HasPlayers() && rounds > 0
      modifies this`bob, this`tiePoints, this`roundsTotal, this`currentRound, player`points, sally`points
      ensures HasBonusPlayers() && fresh(bob) && bob.points == 0
      ensures player.points == 0 && sally.points == 0 && tiePoints == 0
      ensures roundsTotal == rounds && currentRound == 0
    {
      player.ResetPoints();
      sally.ResetPoints();
      tiePoints := 0;
      bob := new Player("Bob");
      roundsTotal := rounds;
      currentRound := 0;
    }

    /**
     * The bonus game: reset, play every bonus round, then the three-way verdict.
     * Each counter ends at its total over the bonus rounds alone.
     */
    method RunBonusGame(rounds: nat, moves: seq<BonusRoundMoves>) returns (w: Standing)
      requires HasPlayers() && rounds > 0 && |moves| == rounds
      modifies this`bob, this`tiePoints, this`roundsTotal, this`currentRound, this`winnerFinal, player`points, sally`points
      ensures HasBonusPlayers() && fresh(bob) && winnerFinal == old(winnerFinal)
      ensures player.points == BonusTotals(moves).human && sally.points == BonusTotals(moves).sally
      ensures bob.points == BonusTotals(moves).bob && tiePoints == BonusTotals(moves).ties
      ensures roundsTotal == rounds && currentRound == roundsTotal
      ensures w == BonusFinal(player.points, sally.points, bob.points)
    {
      StartBonusPhase(rounds);
      PlayBonusRounds(moves);
      w := GetFinalWinner(true);
    }

    /**
     * Setting up a game: the human joins under the given name, Sally joins, and the
     * accepted round count starts from round zero.
     */
    method StartGame(name: string, rounds: nat)
      requires rounds > 0
      modifies this`player, this`sally, this`roundsTotal, this`currentRound
      ensures HasPlayers() && fresh(player) && fresh(sally)
      ensures player.name == name && player.points == 0 && sally.points == 0
      ensures roundsTotal == rounds && currentRound == 0
    {
      player := new Player(name);
      sally := new Player("Sally");
      roundsTotal := rounds;
      currentRound := 0;
    }

    /**
     * The standard phase after setup: every round is played, then the verdict is
     * taken and recorded; the points are the totals over the rounds.
     */
    method PlayStandardGame(moves: seq<StandardMoves>) returns (standard: Standing)
      requires HasPlayers() && player.points == 0 && sally.points == 0
      requires currentRound == 0 && |moves| == roundsTotal
      requires forall i :: 0 <= i < |moves| ==> IsStandard(moves[i])
      modifies this`currentRound, this`tiePoints, this`winnerFinal, player`points, sally`points
      ensures player.points == StandardTotals(moves).human && sally.points == StandardTotals(moves).robot
      ensures tiePoints == old(tiePoints) + StandardTotals(moves).ties
      ensures currentRound == roundsTotal
      ensures standard == StandardFinal(player.points, sally.points)
      ensures winnerFinal == WinnerName(standard, player.name)
    {
      ghost var t := StandardTotals(moves);
      PlayStandardRounds(moves);
      assert player.points == t.human && sally.points == t.robot;
      standard := GetFinalWinner(false);
    }

    /**
     * A whole game: setup, the standard phase, and the bonus game exactly when the
     * recorded winner's name equals the human's name. That is the human's standard
     * win for every name but "Sally" and "no one". The inputs stand for what the
     * prompts return: the human's name, accepted round counts and accepted moves,
     * and the opponents' draws.
     */
    method Run(name: string, rounds: nat, moves: seq<StandardMoves>, bonusRounds: nat, bonusMoves: seq<BonusRoundMoves>)
      returns (standard: Standing, bonus: Option<Standing>)
      requires rounds > 0 && |moves| == rounds
      requires forall i :: 0 <= i < |moves| ==> IsStandard(moves[i])
      requires bonusRounds > 0 && |bonusMoves| == bonusRounds
      modifies this
      ensures HasPlayers() && fresh(player) && fresh(sally) && player.name == name
      ensures standard == StandardFinal(StandardTotals(moves).human, StandardTotals(moves).robot)
      ensures winnerFinal == WinnerName(standard, name)
      ensures bonus.Some? <==> BonusUnlockedAsWritten(name, StandardTotals(moves).human, StandardTotals(moves).robot)
      ensures name != "Sally" && name != "no one" ==>
        (bonus.Some? <==> BonusUnlocked(StandardTotals(moves).human, StandardTotals(moves).robot))
      ensures bonus.None? ==> player.points == StandardTotals(moves).human && sally.points == StandardTotals(moves).robot
      ensures bonus.None? ==> tiePoints == old(tiePoints) + StandardTotals(moves).ties && currentRound == roundsTotal == rounds
      ensures bonus.None? ==> bob == old(bob)
      ensures bonus.Some? ==> HasBonusPlayers() && fresh(bob) && currentRound == roundsTotal == bonusRounds
      ensures bonus.Some? ==> bonus.value == BonusFinal(BonusTotals(bonusMoves).human, BonusTotals(bonusMoves).sally, BonusTotals(bonusMoves).bob)
      ensures bonus.Some? ==> player.points == BonusTotals(bonusMoves).human && sally.points == BonusTotals(bonusMoves).sally
      ensures bonus.Some? ==> bob.points == BonusTotals(bonusMoves).bob && tiePoints == BonusTotals(bonusMoves).ties
    {
      ghost var t, b := StandardTotals(moves), BonusTotals(bonusMoves);
      StartGame(name, rounds);
      standard := PlayStandardGame(moves);
      assert standard == StandardFinal(t.human, t.robot);
      if name != "Sally" && name != "no one" {
        GatesAgreeForOtherNames(name, t.human, t.robot);
      }
      if winnerFinal == player.name {
        var w := RunBonusGame(bonusRounds, bonusMoves);
        bonus := Some(w);
        assert w == BonusFinal(b.human, b.sally, b.bob);
      } else {
        bonus := None;
      }
    }
  }
}
